/**
 * The HTML fallbacks of import.py that the other two variants do not
 * share: the line-based description with its 25-line cap, the location
 * cut at the first comma, the label-stripped experience and qualification
 * with their 50-character ceiling, the breadcrumb and title-keyword
 * category chain, and the contract-type chain.
 */
module ImportFallbacks {

  import opened Common
  import opened Text
  import opened JsonValues
  import opened Schema
  import opened Page
  import opened Categories

  // ---------------------------------------------------------------- description, first method

  /** Markers that disqualify an element under the "Detalle del empleo" heading. */
  const DetailMarkers: seq<string> := ["schema.org", "@type", "Detalle del empleo", "Publicado"]

  /** An element's text is used when it is longer than 3 characters and carries no marker. */
  predicate DetailElementUsed(text: string) {
    text != "" && |text| > 3 && !Mentions(text, DetailMarkers)
  }

  /** The stripped lines longer than 3 characters, in order. */
  function LongLines(lines: seq<string>): (r: seq<string>)
    decreases |lines|
  {
    if lines == [] then [] else LongLines(lines[..|lines| - 1]) + KeptLine(lines[|lines| - 1])
  }

  /** One line, stripped, when it is still longer than 3 characters. */
  function KeptLine(line: string): seq<string> {
    var t := Strip(line);
    if t != "" && |t| > 3 then [t] else []
  }

  /** The description parts the first method collects from the elements' texts. */
  function DetailParts(texts: seq<string>): seq<string>
    decreases |texts|
  {
    if texts == [] then []
    else
      var text := texts[|texts| - 1];
      DetailParts(texts[..|texts| - 1]) + (if DetailElementUsed(text) then LongLines(SplitOn(text, {'\n'})) else [])
  }

  /** Each stripped line of one element text goes through the length test. */
  method AppendLongLines(acc: seq<string>, lines: seq<string>) returns (r: seq<string>)
    ensures r == acc + LongLines(lines)
  {
    r := acc;
    var i := 0;
    while i < |lines|
      invariant 0 <= i <= |lines|
      invariant r == acc + LongLines(lines[..i])
    {
      assert lines[..i + 1][..i] == lines[..i];
      assert acc + LongLines(lines[..i + 1]) == r + KeptLine(lines[i]);
      var line := Strip(lines[i]);
      if line != "" && |line| > 3 {
        r := r + [line];
      }
      i := i + 1;
    }
    assert lines[..i] == lines;
  }

  /** The loop over the `p`/`div`/`span` elements under the heading's parent. */
  method CollectDetailParts(texts: seq<string>) returns (parts: seq<string>)
    ensures parts == DetailParts(texts)
  {
    parts := [];
    var i := 0;
    while i < |texts|
      invariant 0 <= i <= |texts|
      invariant parts == DetailParts(texts[..i])
    {
      assert texts[..i + 1][..i] == texts[..i];
      var text := texts[i];
      if DetailElementUsed(text) {
        parts := AppendLongLines(parts, SplitOn(text, {'\n'}));
      }
      i := i + 1;
    }
    assert texts[..i] == texts;
  }

  /** Every long line is a stripped piece of one line, longer than 3 characters. */
  lemma {:induction false} LongLinesShape(lines: seq<string>)
    requires forall k :: 0 <= k < |lines| ==> '\n' !in lines[k]
    ensures forall e :: e in LongLines(lines) ==> Stripped(e) && |e| > 3 && '\n' !in e
    decreases |lines|
  {
    if lines != [] {
      LongLinesShape(lines[..|lines| - 1]);
      StripIsPiece(lines[|lines| - 1]);
    }
  }

  lemma StripIsPiece(s: string)
    ensures forall x :: x in Strip(s) ==> x in s
  {
    var a, b :| 0 <= a <= b <= |s| && Strip(s) == s[a..b];
  }

  /** The first method's parts are stripped single lines longer than 3 characters. */
  lemma {:induction false} DetailPartsShape(texts: seq<string>)
    ensures forall e :: e in DetailParts(texts) ==> Stripped(e) && |e| > 3 && '\n' !in e
    decreases |texts|
  {
    if texts != [] {
      DetailPartsShape(texts[..|texts| - 1]);
      var text := texts[|texts| - 1];
      SplitOnPiecesAvoidSeparators(text, {'\n'});
      LongLinesShape(SplitOn(text, {'\n'}));
    }
  }

  // ---------------------------------------------------------------- description, second method

  /** Words that mark a block as part of the job details. */
  const DetailKeywords: seq<string> :=
    ["educación", "experiencia", "gestión", "coordinación", "mantenimiento", "limpieza", "responsabilidad"]

  /** A block is used when it is 16 to 499 characters long, has no schema markup and mentions a detail word. */
  predicate KeywordBlock(text: string) {
    15 < |text| < 500 && !Contains(text, "schema.org") && !Contains(text, "@type") &&
    Mentions(Lower(text), DetailKeywords)
  }

  /** The blocks the second method keeps, in order. */
  function KeywordBlocks(texts: seq<string>): seq<string>
    decreases |texts|
  {
    if texts == [] then []
    else
      var text := texts[|texts| - 1];
      KeywordBlocks(texts[..|texts| - 1]) + (if KeywordBlock(text) then [text] else [])
  }

  /** The loop over every `p`/`li`/`div` element of the page. */
  method CollectKeywordBlocks(texts: seq<string>) returns (parts: seq<string>)
    ensures parts == KeywordBlocks(texts)
  {
    parts := [];
    var i := 0;
    while i < |texts|
      invariant 0 <= i <= |texts|
      invariant parts == KeywordBlocks(texts[..i])
    {
      assert texts[..i + 1][..i] == texts[..i];
      if KeywordBlock(texts[i]) {
        parts := parts + [texts[i]];
      }
      i := i + 1;
    }
    assert texts[..i] == texts;
  }

  /** A block is kept exactly when it passes the test; the kept ones keep their order. */
  lemma {:induction false} KeywordBlocksMembers(texts: seq<string>)
    ensures forall e :: e in KeywordBlocks(texts) <==> e in texts && KeywordBlock(e)
    ensures |KeywordBlocks(texts)| <= |texts|
    decreases |texts|
  {
    if texts != [] {
      var pre := texts[..|texts| - 1];
      KeywordBlocksMembers(pre);
      assert texts == pre + [texts[|texts| - 1]];
    }
  }

  /** The parts of both methods: the second one runs only when the first found nothing. */
  function DescriptionParts(p: DetailPage): seq<string> {
    var first := if p.detailTexts.Some? then DetailParts(p.detailTexts.value) else [];
    if first != [] then first else KeywordBlocks(p.blockTexts)
  }

  // ---------------------------------------------------------------- de-duplication and cap

  /** The parts longer than 3 characters, each only the first time it is seen. */
  function Unique(parts: seq<string>): seq<string>
    decreases |parts|
  {
    if parts == [] then []
    else
      var u := Unique(parts[..|parts| - 1]);
      var part := parts[|parts| - 1];
      if part !in u && |part| > 3 then u + [part] else u
  }

  /** The `seen` set and `unique_parts` list loop. */
  method UniqueParts(parts: seq<string>) returns (unique: seq<string>)
    ensures unique == Unique(parts)
  {
    var seen: set<string> := {};
    unique := [];
    var i := 0;
    while i < |parts|
      invariant 0 <= i <= |parts|
      invariant unique == Unique(parts[..i])
      invariant seen == set x | x in unique
    {
      assert parts[..i + 1][..i] == parts[..i];
      var part := parts[i];
      if part !in seen && |part| > 3 {
        seen := seen + {part};
        unique := unique + [part];
      }
      i := i + 1;
    }
    assert parts[..i] == parts;
  }

  /** The part at `k` is longer than 3 characters and occurs nowhere before `k`. */
  predicate FirstSighting(parts: seq<string>, k: int)
    requires 0 <= k < |parts|
  {
    |parts[k]| > 3 && forall j :: 0 <= j < k ==> parts[j] != parts[k]
  }

  /** The reference: the parts at their first sighting, in order. */
  function Sightings(parts: seq<string>, n: nat): seq<string>
    requires n <= |parts|
    decreases n
  {
    if n == 0 then []
    else Sightings(parts, n - 1) + (if FirstSighting(parts, n - 1) then [parts[n - 1]] else [])
  }

  lemma {:induction false} SightingsPrefix(parts: seq<string>, pre: seq<string>, n: nat)
    requires n <= |pre| <= |parts| && pre == parts[..|pre|]
    ensures Sightings(parts, n) == Sightings(pre, n)
    decreases n
  {
    if n > 0 {
      SightingsPrefix(parts, pre, n - 1);
      assert forall j :: 0 <= j < n ==> pre[j] == parts[j];
      assert FirstSighting(parts, n - 1) == FirstSighting(pre, n - 1);
    }
  }

  /** A text is among the unique parts exactly when it is a part longer than 3 characters. */
  lemma {:induction false} UniqueMembers(parts: seq<string>)
    ensures forall e :: e in Unique(parts) <==> e in parts && |e| > 3
    decreases |parts|
  {
    if parts != [] {
      var pre := parts[..|parts| - 1];
      UniqueMembers(pre);
      assert parts == pre + [parts[|parts| - 1]];
    }
  }

  /** The loop keeps each part at its first sighting, in order. */
  lemma {:induction false} UniqueIsSightings(parts: seq<string>)
    ensures Unique(parts) == Sightings(parts, |parts|)
    decreases |parts|
  {
    if parts != [] {
      var n := |parts|;
      var pre := parts[..n - 1];
      UniqueIsSightings(pre);
      SightingsPrefix(parts, pre, n - 1);
      SightingIsUnseen(parts);
    }
  }

  /** The last part is at its first sighting exactly when the loop has not kept it yet. */
  lemma SightingIsUnseen(parts: seq<string>)
    requires parts != []
    ensures var n := |parts|;
      FirstSighting(parts, n - 1) <==> parts[n - 1] !in Unique(parts[..n - 1]) && |parts[n - 1]| > 3
  {
    var n := |parts|;
    var pre := parts[..n - 1];
    var part := parts[n - 1];
    UniqueMembers(pre);
    if part in pre {
      var j :| 0 <= j < n - 1 && pre[j] == part;
      assert parts[j] == part;
    } else {
      assert forall j :: 0 <= j < n - 1 ==> pre[j] == parts[j];
    }
  }

  /** No part appears twice among the unique parts. */
  lemma {:induction false} UniqueDistinct(parts: seq<string>)
    ensures forall i, j :: 0 <= i < j < |Unique(parts)| ==> Unique(parts)[i] != Unique(parts)[j]
    decreases |parts|
  {
    if parts != [] {
      UniqueDistinct(parts[..|parts| - 1]);
    }
  }

  /** At most 25 entries are kept: `unique_parts[:25]`. */
  function Capped(u: seq<string>): (c: seq<string>)
    ensures |c| <= 25
    ensures |c| == if |u| < 25 then |u| else 25
    ensures c == u[..|c|]
  {
    if |u| <= 25 then u else u[..25]
  }

  /** The description the fallback writes: the capped unique parts joined with '\n'. */
  function DescriptionText(parts: seq<string>): string {
    Join("\n", Capped(Unique(parts)))
  }

  /** import.py's description fallback, when the description is still falsy and some part was found. */
  function ImportDescription(r: Record, p: DetailPage): Record {
    if Truthy(r.description) then r
    else
      var parts := DescriptionParts(p);
      if parts == [] then r else r.(description := JStr(DescriptionText(parts)))
  }

  /**
   * The written description is the '\n'-join of at most 25 distinct parts,
   * each longer than 3 characters and found on the page, in first-seen
   * order; nothing else changes, and a truthy description is kept.
   */
  lemma ImportDescriptionShape(r: Record, p: DetailPage)
    ensures var r' := ImportDescription(r, p);
      r' == r.(description := r'.description) && (Truthy(r.description) ==> r' == r)
    ensures var r' := ImportDescription(r, p);
      r' != r ==>
        var parts := DescriptionParts(p);
        var lines := Capped(Unique(parts));
        r'.description == JStr(Join("\n", lines)) && 1 <= |lines| <= 25 &&
        lines == Capped(Sightings(parts, |parts|)) &&
        (forall e :: e in lines ==> e in parts && |e| > 3) &&
        (forall i, j :: 0 <= i < j < |lines| ==> lines[i] != lines[j])
  {
    var parts := DescriptionParts(p);
    if !Truthy(r.description) && parts != [] {
      DescriptionPartsLong(p);
      CappedUniqueShape(parts);
    }
  }

  /** Every part either method collects is longer than 3 characters. */
  lemma DescriptionPartsLong(p: DetailPage)
    ensures forall e :: e in DescriptionParts(p) ==> |e| > 3
  {
    if p.detailTexts.Some? && DetailParts(p.detailTexts.value) != [] {
      DetailPartsShape(p.detailTexts.value);
    } else {
      KeywordBlocksMembers(p.blockTexts);
    }
  }

  /** The capped unique parts: one to 25 distinct parts longer than 3 characters, in first-seen order. */
  lemma CappedUniqueShape(parts: seq<string>)
    requires parts != [] && |parts[0]| > 3
    ensures var lines := Capped(Unique(parts));
      1 <= |lines| <= 25 && lines == Capped(Sightings(parts, |parts|)) &&
      (forall e :: e in lines ==> e in parts && |e| > 3) &&
      (forall i, j :: 0 <= i < j < |lines| ==> lines[i] != lines[j])
  {
    var u := Unique(parts);
    UniqueMembers(parts);
    UniqueIsSightings(parts);
    UniqueDistinct(parts);
    assert parts[0] in u;
    var lines := Capped(u);
    forall i, j | 0 <= i < j < |lines| ensures lines[i] != lines[j] {
      assert lines[i] == u[i] && lines[j] == u[j];
    }
    forall e | e in lines ensures e in parts && |e| > 3 {
      assert e in u;
    }
  }

  /**
   * When the first method supplied the parts, the stored text splits back
   * into exactly the kept lines: at most 25 lines, none repeated.
   */
  lemma DetailLinesRoundTrip(texts: seq<string>)
    requires DetailParts(texts) != []
    ensures SplitOn(DescriptionText(DetailParts(texts)), {'\n'}) == Capped(Unique(DetailParts(texts)))
    ensures |SplitOn(DescriptionText(DetailParts(texts)), {'\n'})| <= 25
  {
    var parts := DetailParts(texts);
    DetailPartsShape(texts);
    UniqueMembers(parts);
    var lines := Capped(Unique(parts));
    assert parts[0] in Unique(parts);
    forall k | 0 <= k < |lines| ensures '\n' !in lines[k] {
      assert lines[k] in Unique(parts);
    }
    SplitOnJoin(lines, '\n');
  }

  // ---------------------------------------------------------------- location

  const LocationLabel: string := "Ubicación:"

  /** The location text without its label, stripped, cut before its first comma. */
  function LocationValue(text: string): string {
    var t := Strip(ReplaceAll(text, LocationLabel, ""));
    if ',' in t then Strip(SplitOn(t, {','})[0]) else t
  }

  /** When the location is falsy and the label's parent exists, location and address take the cut text. */
  function ImportLocation(r: Record, text: Option<string>): Record {
    if Truthy(r.location) || text.None? then r
    else
      var loc := LocationValue(text.value);
      r.(location := JStr(loc), address := JStr(loc))
  }

  /**
   * The stored location is stripped and holds no comma; it is the whole
   * unlabelled text when that has no comma; address always equals it.
   */
  lemma ImportLocationShape(r: Record, text: Option<string>)
    ensures var r' := ImportLocation(r, text);
      r' == r.(location := r'.location, address := r'.address)
    ensures Truthy(r.location) || text.None? ==> ImportLocation(r, text) == r
    ensures !Truthy(r.location) && text.Some? ==>
      var r' := ImportLocation(r, text);
      var t := Strip(ReplaceAll(text.value, LocationLabel, ""));
      r'.location.JStr? && r'.address == r'.location &&
      Stripped(r'.location.s) && ',' !in r'.location.s &&
      (',' !in t ==> r'.location.s == t)
  {
    if !Truthy(r.location) && text.Some? {
      var t := Strip(ReplaceAll(text.value, LocationLabel, ""));
      if ',' in t {
        SplitOnPiecesAvoidSeparators(t, {','});
        StripIsPiece(SplitOn(t, {','})[0]);
      }
    }
  }

  // ---------------------------------------------------------------- experience and qualification

  const ExperienceLabel: string := "Experiencia requerida:"
  const QualificationLabel: string := "Educación requerida:"

  /** The label matches at the start of `s`, ignoring case. */
  predicate LabelAt(s: string, lab: string) {
    |lab| <= |s| && Lower(s[..|lab|]) == Lower(lab)
  }

  /**
   * `re.sub(lab + r'\s*', '', s, flags=re.IGNORECASE)`: scanning left to
   * right, each case-insensitive occurrence of the label is removed with
   * the whitespace after it.
   */
  function RemoveLabel(s: string, lab: string): (r: string)
    requires lab != ""
    ensures |r| <= |s|
    decreases |s|
  {
    if s == [] then []
    else if LabelAt(s, lab) then
      var rest := s[|lab|..];
      RemoveLabel(rest[FirstNonSpace(rest, 0)..], lab)
    else [s[0]] + RemoveLabel(s[1..], lab)
  }

  /** A text where the label occurs nowhere, in any case, is left unchanged. */
  lemma {:induction false} RemoveLabelAbsent(s: string, lab: string)
    requires lab != ""
    requires forall i :: 0 <= i < |s| ==> !LabelAt(s[i..], lab)
    ensures RemoveLabel(s, lab) == s
    decreases |s|
  {
    if s != [] {
      assert s[0..] == s;
      forall i | 0 <= i < |s| - 1 ensures !LabelAt(s[1..][i..], lab) {
        assert s[1..][i..] == s[i + 1..];
      }
      RemoveLabelAbsent(s[1..], lab);
    }
  }

  /** The label, whitespace and then a value without the label: the value alone remains. */
  lemma LabelThenValue(lab: string, space: string, value: string)
    requires lab != ""
    requires forall i :: 0 <= i < |space| ==> IsSpace(space[i])
    requires value == [] || !IsSpace(value[0])
    requires forall i :: 0 <= i < |value| ==> !LabelAt(value[i..], lab)
    ensures RemoveLabel(lab + space + value, lab) == value
  {
    var s := lab + space + value;
    assert s[..|lab|] == lab;
    var rest := s[|lab|..];
    assert rest == space + value;
    var k := FirstNonSpace(rest, 0);
    assert forall i :: 0 <= i < |space| ==> rest[i] == space[i];
    assert |space| < |rest| ==> rest[|space|] == value[0];
    assert k == |space|;
    assert rest[k..] == value;
    RemoveLabelAbsent(value, lab);
  }

  /**
   * The experience and qualification rule: a falsy value takes the
   * unlabelled text when that is non-empty and shorter than 50 characters.
   */
  function LabelledValue(current: Json, text: Option<string>, lab: string): (v: Json)
    requires lab != ""
    ensures Truthy(current) || text.None? ==> v == current
    ensures v == current || (v.JStr? && v.s != "" && |v.s| < 50 && v.s == RemoveLabel(text.value, lab))
    ensures text.Some? && !Truthy(current) ==>
      (v != current <==> RemoveLabel(text.value, lab) != "" && |RemoveLabel(text.value, lab)| < 50 &&
                         current != JStr(RemoveLabel(text.value, lab)))
  {
    if Truthy(current) || text.None? then current
    else
      var clean := RemoveLabel(text.value, lab);
      if clean != "" && |clean| < 50 then JStr(clean) else current
  }

  function ImportExperience(r: Record, text: Option<string>): Record {
    r.(experience := LabelledValue(r.experience, text, ExperienceLabel))
  }

  function ImportQualification(r: Record, text: Option<string>): Record {
    r.(qualification := LabelledValue(r.qualification, text, QualificationLabel))
  }

  // ---------------------------------------------------------------- category chain

  /** Breadcrumb texts that name a navigation step rather than a category. */
  const NavigationCrumbs: seq<string> := ["Home", "Búsqueda", "Search"]

  /** The second-to-last breadcrumb item, when the trail has more than two and it names a category. */
  function CrumbCategory(items: Option<seq<string>>): (c: Option<string>)
    ensures c.Some? <==> (items.Some? && |items.value| > 2 &&
                          items.value[|items.value| - 2] != "" && items.value[|items.value| - 2] !in NavigationCrumbs)
    ensures c.Some? ==> c.value == items.value[|items.value| - 2]
  {
    if items.Some? && |items.value| > 2 then
      var t := items.value[|items.value| - 2];
      if t != "" && t !in NavigationCrumbs then Some(t) else None
    else None
  }

  /** The title keywords of import.py, in the order the chain tests them. */
  const ImportTitleRules: seq<Rule> := [
    Rule("Cleaning & Maintenance", ["limpieza", "cleaning", "mantenimiento"]),
    Rule("Management", ["coordinador", "coordinator", "gerente", "manager"]),
    Rule("Sales", ["vendedor", "ventas", "sales"]),
    Rule("Accounting & Finance", ["contador", "contabilidad", "accounting"])
  ]

  /** The label of the first rule with a keyword in the lower-cased title; nothing for an empty title. */
  function ImportTitleCategory(title: Json): Option<string> {
    match title
    case JStr(t) => if t == "" then None else FirstRuleFrom(Lower(t), ImportTitleRules, 0)
    case _ => None
  }

  /** The category fallback: breadcrumb first, then the title keywords. */
  function ImportCategory(r: Record, crumbs: Option<seq<string>>): Record {
    if Truthy(r.category) then r
    else match CrumbCategory(crumbs)
      case Some(c) => r.(category := JStr(c))
      case None =>
        match ImportTitleCategory(r.title)
        case Some(c) => r.(category := JStr(c))
        case None => r
  }

  /**
   * The chain's precedence: a truthy category stays; otherwise a usable
   * breadcrumb wins; otherwise the first rule with a keyword in the title
   * decides, and the category stays as it was when none has one.
   */
  lemma ImportCategoryChain(r: Record, crumbs: Option<seq<string>>, t: string)
    ensures var r' := ImportCategory(r, crumbs);
      r' == r.(category := r'.category) && (Truthy(r.category) ==> r' == r)
    ensures !Truthy(r.category) && CrumbCategory(crumbs).Some? ==>
      ImportCategory(r, crumbs).category == JStr(crumbs.value[|crumbs.value| - 2])
    ensures !Truthy(r.category) && CrumbCategory(crumbs).None? && r.title == JStr(t) && t != "" ==>
      (forall k :: FirstMentionFrom(Lower(t), ImportTitleRules, 0, k) ==>
         ImportCategory(r, crumbs).category == JStr(ImportTitleRules[k].name)) &&
      ((forall k :: 0 <= k < |ImportTitleRules| ==> !Mentions(Lower(t), ImportTitleRules[k].keywords)) ==>
         ImportCategory(r, crumbs) == r)
  {
    if t != "" {
      FirstRuleFromMeaning(Lower(t), ImportTitleRules, 0);
    }
  }

  // ---------------------------------------------------------------- contract type

  /** The contract phrases of import.py, case-sensitive, in the order the chain tests them. */
  const ContractRules: seq<Rule> := [
    Rule("Full Time", ["Tiempo Completo", "Full Time"]),
    Rule("Part Time", ["Tiempo Parcial", "Part Time"]),
    Rule("Temporary", ["Temporal"]),
    Rule("Contract", ["Por Contrato"])
  ]

  function ImportContractType(r: Record, text: Option<string>): Record {
    if Truthy(r.jobType) || text.None? then r
    else match FirstRuleFrom(text.value, ContractRules, 0)
      case Some(c) => r.(jobType := JStr(c))
      case None => r
  }

  /**
   * The contract chain: only a falsy type is filled, with the label of the
   * first rule whose phrase occurs in the text; no phrase, no change.
   */
  lemma ContractTypeChain(r: Record, text: string)
    ensures var r' := ImportContractType(r, Some(text));
      r' == r.(jobType := r'.jobType) && (Truthy(r.jobType) ==> r' == r)
    ensures !Truthy(r.jobType) ==>
      (forall k :: FirstMentionFrom(text, ContractRules, 0, k) ==>
         ImportContractType(r, Some(text)).jobType == JStr(ContractRules[k].name)) &&
      ((forall k :: 0 <= k < |ContractRules| ==> !Mentions(text, ContractRules[k].keywords)) ==>
         ImportContractType(r, Some(text)) == r)
  {
    FirstRuleFromMeaning(text, ContractRules, 0);
  }
}
