/**
 * The JSON-LD interpreter shared by scraper3.py and all_scraper.py: every
 * ld+json block that holds a schema.org JobPosting (at the top level or in
 * an `@graph` array) is mapped onto the record, block after block. An
 * exception inside a block ends that block but keeps what it already wrote.
 */
module JsonLd {

  import opened Common
  import opened Text
  import opened Lines
  import opened JsonValues
  import opened Schema
  import opened Page

  /** The record after (part of) a block: `Raised` when the block stopped on an exception. */
  datatype Outcome = Completed(rec: Record) | Raised(rec: Record) {
    predicate IsFailure() {
      Raised?
    }

    function PropagateFailure(): Outcome
      requires Raised?
    {
      this
    }

    function Extract(): Record
      requires Completed?
    {
      rec
    }
  }

  // ---------------------------------------------------------------- selection

  /**
   * The posting a block contributes: the top-level object when it is a
   * JobPosting, else the first JobPosting of its `@graph` array. A non-object
   * met before it, or a `@graph` that is not an array, stops the search.
   */
  function SelectPosting(data: Json): (r: Option<seq<Member>>)
    ensures r.Some? ==> IsJobPosting(r.value)
    ensures data.JObj? && IsJobPosting(data.members) ==> r == Some(data.members)
    ensures r.Some? && data != JObj(r.value) ==>
      data.JObj? && HasKey(data.members, "@graph") &&
      GraphPosting(Get(data.members, "@graph").value) == r
  {
    match data
    case JObj(ms) =>
      if IsJobPosting(ms) then Some(ms)
      else if HasKey(ms, "@graph") then GraphPosting(Get(ms, "@graph").value)
      else None
    case _ => None
  }

  /** The first JobPosting object of an `@graph` value. */
  function GraphPosting(g: Json): (r: Option<seq<Member>>)
    ensures r.Some? ==> (g.JArr? &&
      exists k :: 0 <= k < |g.items| && g.items[k] == JObj(r.value) && IsJobPosting(r.value) &&
        forall m :: 0 <= m < k ==> g.items[m].JObj? && !IsJobPosting(g.items[m].members))
  {
    match g
    case JArr(items) => FirstPosting(items)
    case _ => None
  }

  function FirstPosting(items: seq<Json>): (r: Option<seq<Member>>)
    ensures r.Some? ==>
      exists k :: 0 <= k < |items| && items[k] == JObj(r.value) && IsJobPosting(r.value) &&
        forall m :: 0 <= m < k ==> items[m].JObj? && !IsJobPosting(items[m].members)
    decreases |items|
  {
    if items == [] then None
    else match items[0]
      case JObj(ms) =>
        if IsJobPosting(ms) then Some(ms)
        else
          var r := FirstPosting(items[1..]);
          if r.Some? then
            ghost var k :| 0 <= k < |items[1..]| && items[1..][k] == JObj(r.value) && IsJobPosting(r.value) &&
              forall m :: 0 <= m < k ==> items[1..][m].JObj? && !IsJobPosting(items[1..][m].members);
            assert items[k + 1] == JObj(r.value);
            r
          else r
      case _ => None
  }

  // ---------------------------------------------------------------- vocabulary

  /** The Spanish label of a schema.org employment-type code; other values pass through. */
  function EmploymentLabel(code: Json): Json {
    if code == JStr("FULL_TIME") then JStr("Tiempo Completo")
    else if code == JStr("PART_TIME") then JStr("Tiempo parcial")
    else if code == JStr("TEMPORARY") then JStr("Temporario")
    else if code == JStr("CONTRACT") then JStr("Contrato")
    else code
  }

  /** The Spanish label of a salary unit code; anything else is ''. */
  function UnitLabel(unit: Json): string {
    if unit == JStr("MONTH") then "mensual"
    else if unit == JStr("YEAR") then "anual"
    else if unit == JStr("HOUR") then "hora"
    else ""
  }

  // ---------------------------------------------------------------- steps

  function TitleStep(r: Record, it: seq<Member>): Outcome {
    match GetStripped(it, "title")
    case None => Raised(r)
    case Some(t) => Completed(r.(title := JStr(t)))
  }

  function DescriptionStep(r: Record, it: seq<Member>): Outcome {
    var d := GetOr(it, "description", JStr(""));
    if !Truthy(d) then Completed(r)
    else match d
      case JStr(s) => Completed(r.(description := JStr(BreakSentences(s))))
      case _ => Raised(r)
  }

  function ValidThroughStep(r: Record, it: seq<Member>): Outcome {
    var v := GetOr(it, "validThrough", JNull);
    Completed(r.(expiryDate := v, applicationDeadlineDate := v))
  }

  /** A list or object as code cannot be looked up in the label dict. */
  function EmploymentStep(r: Record, it: seq<Member>): Outcome {
    var e := GetOr(it, "employmentType", JStr(""));
    if !Hashable(e) then Raised(r) else Completed(r.(jobType := EmploymentLabel(e)))
  }

  function EducationStep(r: Record, it: seq<Member>): Outcome {
    match GetOr(it, "educationRequirements", JObj([]))
    case JObj(edu) =>
      (match GetStripped(edu, "credentialCategory")
       case None => Raised(r)
       case Some(q) => Completed(r.(qualification := JStr(q))))
    case _ => Completed(r)
  }

  /**
   * The place of work: a non-empty locality, else a non-empty region, is
   * written to location, address and map location.
   */
  function LocationStep(r: Record, it: seq<Member>): Outcome {
    match GetOr(it, "jobLocation", JObj([]))
    case JObj(jl) =>
      (match GetOr(jl, "address", JObj([]))
       case JObj(addr) =>
         var locality := GetStripped(addr, "addressLocality");
         var region := GetStripped(addr, "addressRegion");
         if locality.None? || region.None? then Raised(r)
         else
           var place := if locality.value != "" then locality.value else region.value;
           if place == "" then Completed(r)
           else Completed(r.(location := JStr(place), address := JStr(place), mapLocation := JStr(place)))
       case _ => Completed(r))
    case _ => Completed(r)
  }

  /**
   * The salary: a number, boolean or string value is stored as its stripped
   * text; then the unit label is stored (an unhashable unit raises after the
   * salary was written).
   */
  function SalaryStep(r: Record, it: seq<Member>): Outcome {
    match GetOr(it, "baseSalary", JObj([]))
    case JObj(sal) =>
      (match GetOr(sal, "value", JObj([]))
       case JObj(val) =>
         var v := GetOr(val, "value", JNull);
         var r1 := if v.JInt? || v.JBool? || v.JStr? then r.(salary := JStr(Strip(PyStr(v)))) else r;
         var unit := GetOr(val, "unitText", JStr(""));
         if !Hashable(unit) then Raised(r1) else Completed(r1.(salaryType := JStr(UnitLabel(unit))))
       case _ => Completed(r))
    case _ => Completed(r)
  }

  /** The writes of one JobPosting, in source order; the first exception stops them. */
  function ApplyPosting(r: Record, it: seq<Member>): Outcome {
    var r1 :- TitleStep(r, it);
    var r2 :- DescriptionStep(r1, it);
    var r3 :- ValidThroughStep(r2, it);
    var r4 :- EmploymentStep(r3, it);
    var r5 :- EducationStep(r4, it);
    var r6 :- LocationStep(r5, it);
    SalaryStep(r6, it)
  }

  /** One ld+json block: skipped when empty, unparsable or without a posting. */
  function LdBlock(r: Record, script: LdScript): Record {
    if script.text.None? || script.text.value == "" || script.parsed.None? then r
    else match SelectPosting(script.parsed.value)
      case None => r
      case Some(it) => ApplyPosting(r, it).rec
  }

  /** All blocks in document order. */
  function LdBlocks(r: Record, scripts: seq<LdScript>): Record
    decreases |scripts|
  {
    if scripts == [] then r
    else LdBlock(LdBlocks(r, scripts[..|scripts| - 1]), scripts[|scripts| - 1])
  }

  // ---------------------------------------------------------------- properties

  /**
   * Block selection: a top-level JobPosting is taken as is; otherwise the
   * posting is the first JobPosting of `@graph`, every entry before it being
   * an object of another type; nothing else is ever taken.
   */
  lemma SelectionRule(data: Json, it: seq<Member>)
    requires SelectPosting(data) == Some(it)
    ensures IsJobPosting(it)
    ensures data == JObj(it) || (
      data.JObj? && !IsJobPosting(data.members) && HasKey(data.members, "@graph") &&
      var g := Get(data.members, "@graph").value;
      g.JArr? && (exists k :: 0 <= k < |g.items| && g.items[k] == JObj(it) &&
                    forall m :: 0 <= m < k ==> g.items[m].JObj? && !IsJobPosting(g.items[m].members)))
  {
    if data != JObj(it) {
      assert data.JObj? && !IsJobPosting(data.members);
    }
  }

  /** Employment codes map to their labels; other hashable values pass through unchanged. */
  lemma EmploymentCodes(r: Record, it: seq<Member>)
    ensures var e := GetOr(it, "employmentType", JStr(""));
      match EmploymentStep(r, it)
      case Raised(r') => r' == r && !Hashable(e)
      case Completed(r') =>
        r' == r.(jobType := r'.jobType) &&
        (e == JStr("FULL_TIME") ==> r'.jobType == JStr("Tiempo Completo")) &&
        (e == JStr("PART_TIME") ==> r'.jobType == JStr("Tiempo parcial")) &&
        (e == JStr("TEMPORARY") ==> r'.jobType == JStr("Temporario")) &&
        (e == JStr("CONTRACT") ==> r'.jobType == JStr("Contrato")) &&
        (e !in {JStr("FULL_TIME"), JStr("PART_TIME"), JStr("TEMPORARY"), JStr("CONTRACT")} ==> r'.jobType == e)
  {
  }

  /** Unit codes map to their labels and every other hashable unit to ''. */
  lemma UnitCodes(unit: Json)
    ensures unit == JStr("MONTH") <==> UnitLabel(unit) == "mensual"
    ensures unit == JStr("YEAR") <==> UnitLabel(unit) == "anual"
    ensures unit == JStr("HOUR") <==> UnitLabel(unit) == "hora"
    ensures unit !in {JStr("MONTH"), JStr("YEAR"), JStr("HOUR")} <==> UnitLabel(unit) == ""
  {
  }

  /**
   * Locality over region: the chosen place is written identically to the
   * three location keys, and when both are empty nothing changes.
   */
  lemma LocalityOverRegion(r: Record, it: seq<Member>, addr: seq<Member>, locality: string, region: string)
    requires GetOr(it, "jobLocation", JObj([])).JObj?
    requires GetOr(GetOr(it, "jobLocation", JObj([])).members, "address", JObj([])) == JObj(addr)
    requires GetStripped(addr, "addressLocality") == Some(locality)
    requires GetStripped(addr, "addressRegion") == Some(region)
    ensures LocationStep(r, it).Completed?
    ensures var r' := LocationStep(r, it).rec;
      (locality != "" ==> r' == r.(location := JStr(locality), address := JStr(locality), mapLocation := JStr(locality))) &&
      (locality == "" && region != "" ==> r' == r.(location := JStr(region), address := JStr(region), mapLocation := JStr(region))) &&
      (locality == "" && region == "" ==> r' == r)
  {
  }

  /** The stored structured description never contains ". ". */
  lemma StructuredDescriptionHasNoDotSpace(r: Record, it: seq<Member>)
    requires DescriptionStep(r, it).rec.description != r.description
    ensures var d := DescriptionStep(r, it).rec.description;
      d.JStr? && !Contains(d.s, ". ")
  {
    match GetOr(it, "description", JStr(""))
    case JStr(s) => BreakSentencesNoDotSpace(s);
    case _ =>
  }

  /**
   * An exception in a later step keeps the earlier writes: once the title
   * step succeeds, the block leaves the stripped title in place whatever
   * happens after it.
   */
  lemma RaisedKeepsTitle(r: Record, it: seq<Member>, t: string)
    requires GetStripped(it, "title") == Some(t)
    ensures ApplyPosting(r, it).rec.title == JStr(t)
  {
    PostingFrame(r, it);
  }

  lemma RaisedKeepsSalary(r: Record, it: seq<Member>, val: seq<Member>, n: int)
    requires GetOr(it, "baseSalary", JObj([])).JObj?
    requires GetOr(GetOr(it, "baseSalary", JObj([])).members, "value", JObj([])) == JObj(val)
    requires GetOr(val, "value", JNull) == JInt(n)
    requires !Hashable(GetOr(val, "unitText", JStr("")))
    ensures SalaryStep(r, it) == Raised(r.(salary := JStr(Strip(Decimal(n)))))
  {
  }

  /** Every block that holds a posting is applied again: the last such block decides the title. */
  lemma LastPostingTitleWins(r: Record, scripts: seq<LdScript>, t: string)
    requires scripts != []
    requires var last := scripts[|scripts| - 1];
      last.text.Some? && last.text.value != "" && last.parsed.Some? &&
      SelectPosting(last.parsed.value).Some? &&
      GetStripped(SelectPosting(last.parsed.value).value, "title") == Some(t)
    ensures LdBlocks(r, scripts).title == JStr(t)
  {
    var last := scripts[|scripts| - 1];
    RaisedKeepsTitle(LdBlocks(r, scripts[..|scripts| - 1]), SelectPosting(last.parsed.value).value, t);
  }

  /** The keys no JSON-LD write reaches. */
  predicate OutsideLd(a: Record, b: Record) {
    a.featured == b.featured && a.filled == b.filled && a.urgent == b.urgent &&
    a.tag == b.tag && a.applyType == b.applyType && a.applyUrl == b.applyUrl &&
    a.experience == b.experience && a.category == b.category && a.maxSalary == b.maxSalary &&
    a.featuredImage == b.featuredImage
  }

  /** The JSON-LD blocks never touch the badge flags, the tag, category, experience, image or apply keys. */
  lemma {:induction false} BlocksKeepOtherKeys(r: Record, scripts: seq<LdScript>)
    ensures OutsideLd(r, LdBlocks(r, scripts))
    decreases |scripts|
  {
    if scripts != [] {
      var prev := LdBlocks(r, scripts[..|scripts| - 1]);
      BlocksKeepOtherKeys(r, scripts[..|scripts| - 1]);
      var script := scripts[|scripts| - 1];
      if !(script.text.None? || script.text.value == "" || script.parsed.None?) {
        match SelectPosting(script.parsed.value)
        case None =>
        case Some(it) => PostingKeepsOtherKeys(prev, it);
      }
    }
  }

  lemma PostingKeepsOtherKeys(r: Record, it: seq<Member>)
    ensures OutsideLd(r, ApplyPosting(r, it).rec)
  {
    PostingFrame(r, it);
  }

  /** What a step after the title leaves alone: the title and the keys outside JSON-LD. */
  predicate KeepsAfterTitle(a: Record, b: Record) {
    OutsideLd(a, b) && a.title == b.title
  }

  lemma DescriptionStepKeeps(r: Record, it: seq<Member>)
    ensures KeepsAfterTitle(r, DescriptionStep(r, it).rec)
  {
  }

  lemma ValidThroughStepKeeps(r: Record, it: seq<Member>)
    ensures KeepsAfterTitle(r, ValidThroughStep(r, it).rec)
  {
  }

  lemma EmploymentStepKeeps(r: Record, it: seq<Member>)
    ensures KeepsAfterTitle(r, EmploymentStep(r, it).rec)
  {
  }

  lemma EducationStepKeeps(r: Record, it: seq<Member>)
    ensures KeepsAfterTitle(r, EducationStep(r, it).rec)
  {
  }

  lemma LocationStepKeeps(r: Record, it: seq<Member>)
    ensures KeepsAfterTitle(r, LocationStep(r, it).rec)
  {
  }

  lemma SalaryStepKeeps(r: Record, it: seq<Member>)
    ensures KeepsAfterTitle(r, SalaryStep(r, it).rec)
  {
  }

  /**
   * A posting writes no key outside the JSON-LD ones, and its title is the
   * title step's: the stripped title when it is a string, else unchanged.
   */
  lemma PostingFrame(r: Record, it: seq<Member>)
    ensures OutsideLd(r, ApplyPosting(r, it).rec)
    ensures ApplyPosting(r, it).rec.title == TitleStep(r, it).rec.title
    ensures TitleStep(r, it).rec.title == match GetStripped(it, "title") case Some(t) => JStr(t) case None => r.title
  {
    var o1 := TitleStep(r, it);
    if o1.Completed? {
      var o2 := DescriptionStep(o1.rec, it);
      DescriptionStepKeeps(o1.rec, it);
      if o2.Completed? {
        var o3 := ValidThroughStep(o2.rec, it);
        ValidThroughStepKeeps(o2.rec, it);
        var o4 := EmploymentStep(o3.rec, it);
        EmploymentStepKeeps(o3.rec, it);
        if o4.Completed? {
          var o5 := EducationStep(o4.rec, it);
          EducationStepKeeps(o4.rec, it);
          if o5.Completed? {
            var o6 := LocationStep(o5.rec, it);
            LocationStepKeeps(o5.rec, it);
            if o6.Completed? {
              SalaryStepKeeps(o6.rec, it);
            }
          }
        }
      }
    }
  }

  /** A title is a string or None: no stage ever stores anything else there. */
  predicate TextOrNone(j: Json) {
    j == JNull || j.JStr?
  }

  lemma PostingTitleIsText(r: Record, it: seq<Member>)
    requires TextOrNone(r.title)
    ensures TextOrNone(ApplyPosting(r, it).rec.title)
  {
    PostingFrame(r, it);
  }

  /** The JSON-LD blocks leave a string-or-None title a string or None. */
  lemma {:induction false} LdTitleIsText(r: Record, scripts: seq<LdScript>)
    requires TextOrNone(r.title)
    ensures TextOrNone(LdBlocks(r, scripts).title)
    decreases |scripts|
  {
    if scripts != [] {
      var prev := LdBlocks(r, scripts[..|scripts| - 1]);
      LdTitleIsText(r, scripts[..|scripts| - 1]);
      var script := scripts[|scripts| - 1];
      if !(script.text.None? || script.text.value == "" || script.parsed.None?) {
        match SelectPosting(script.parsed.value)
        case None =>
        case Some(it) => PostingTitleIsText(prev, it);
      }
    }
  }
}
