/**
 * The JSON-LD interpreter of import.py: only the first ld+json script is
 * read, only the items of its `@graph` are examined, and every JobPosting
 * item is applied in order. Only a decoding error is handled locally; any
 * other exception escapes to the outer handler, which discards the whole
 * record (None here).
 */
module GraphLd {

  import opened Common
  import opened Text
  import opened Lines
  import opened JsonValues
  import opened Schema
  import opened Page

  // ---------------------------------------------------------------- vocabulary

  /** The English label of a schema.org employment-type code; other values pass through. */
  function TypeLabel(code: Json): Json {
    if code == JStr("FULL_TIME") then JStr("Full Time")
    else if code == JStr("PART_TIME") then JStr("Part Time")
    else if code == JStr("TEMPORARY") then JStr("Temporary")
    else if code == JStr("CONTRACT") then JStr("Contract")
    else code
  }

  /** Python's `int(x)` for a JSON value: None where it raises. */
  function PyInt(v: Json): Option<int> {
    match v
    case JInt(n) => Some(n)
    case JBool(b) => Some(if b then 1 else 0)
    case JStr(s) => ParseInt(s)
    case _ => None
  }

  /**
   * Experience text for a number of months `m` read from `raw`: whole years
   * when `m` is at least 12 ("1 year" for exactly 12, "<m/12> years"
   * otherwise), else the raw value followed by " months".
   */
  function MonthsText(m: int, raw: Json): string {
    if m >= 12 then Decimal(m / 12) + (if m == 12 then " year" else " years")
    else PyStr(raw) + " months"
  }

  // ---------------------------------------------------------------- item steps

  function GraphTitle(r: Record, it: seq<Member>): (o: Option<Record>)
    ensures o.Some? ==> o.value == r.(title := o.value.title)
  {
    var t :- GetStripped(it, "title");
    Some(r.(title := JStr(t)))
  }

  function GraphDescription(r: Record, it: seq<Member>): (o: Option<Record>)
    ensures o.Some? ==> o.value == r.(description := o.value.description)
  {
    var d := GetOr(it, "description", JStr(""));
    if !Truthy(d) then Some(r)
    else match d
      case JStr(s) => Some(r.(description := JStr(CleanLines(s))))
      case _ => None
  }

  function GraphValidThrough(r: Record, it: seq<Member>): Record {
    var v := GetOr(it, "validThrough", JNull);
    r.(expiryDate := v, applicationDeadlineDate := v)
  }

  function GraphEducation(r: Record, it: seq<Member>): (o: Option<Record>)
    ensures o.Some? ==> o.value == r.(qualification := o.value.qualification)
  {
    match GetOr(it, "educationRequirements", JObj([]))
    case JObj(edu) =>
      var q :- GetStripped(edu, "credentialCategory");
      Some(r.(qualification := JStr(q)))
    case _ => Some(r)
  }

  /** Months of experience: a truthy value is read with `int()` and formatted. */
  function GraphExperience(r: Record, it: seq<Member>): (o: Option<Record>)
    ensures o.Some? ==> o.value == r.(experience := o.value.experience)
  {
    match GetOr(it, "experienceRequirements", JObj([]))
    case JObj(req) =>
      var v := GetOr(req, "monthsOfExperience", JNull);
      if !Truthy(v) then Some(r)
      else
        var m :- PyInt(v);
        Some(r.(experience := JStr(MonthsText(m, v))))
    case _ => Some(r)
  }

  /** Occupational category, then industry while the category is still falsy. */
  function GraphCategory(r: Record, it: seq<Member>): (o: Option<Record>)
    ensures o.Some? ==> o.value == r.(category := o.value.category)
  {
    var occ := GetOr(it, "occupationalCategory", JStr(""));
    var r1 :- if !Truthy(occ) then Some(r)
               else if occ.JStr? then Some(r.(category := JStr(Strip(occ.s))))
               else None;
    if Truthy(r1.category) then Some(r1)
    else
      var ind := GetOr(it, "industry", JStr(""));
      if !Truthy(ind) then Some(r1)
      else if ind.JStr? then Some(r1.(category := JStr(Strip(ind.s))))
      else None
  }

  /** Locality over region, written to location and address only. */
  function GraphLocation(r: Record, it: seq<Member>): (o: Option<Record>)
    ensures o.Some? ==> o.value == r.(location := o.value.location, address := o.value.address)
  {
    match GetOr(it, "jobLocation", JObj([]))
    case JObj(jl) =>
      (match GetOr(jl, "address", JObj([]))
       case JObj(addr) =>
         var locality :- GetStripped(addr, "addressLocality");
         var region :- GetStripped(addr, "addressRegion");
         if locality != "" then Some(r.(location := JStr(locality), address := JStr(locality)))
         else if region != "" then Some(r.(location := JStr(region), address := JStr(region)))
         else Some(r)
       case _ => Some(r))
    case _ => Some(r)
  }

  /** The raw salary value goes to salary and max salary; a known unit sets the salary type. */
  function GraphSalary(r: Record, it: seq<Member>): (r': Record)
    ensures r' == r.(salary := r'.salary, maxSalary := r'.maxSalary, salaryType := r'.salaryType)
  {
    match GetOr(it, "baseSalary", JObj([]))
    case JObj(sal) =>
      (match GetOr(sal, "value", JObj([]))
       case JObj(val) =>
         var v := GetOr(val, "value", JNull);
         var r1 := r.(salary := v, maxSalary := v);
         var unit := GetOr(val, "unitText", JStr(""));
         if unit == JStr("MONTH") then r1.(salaryType := JStr("Monthly"))
         else if unit == JStr("YEAR") then r1.(salaryType := JStr("Yearly"))
         else if unit == JStr("HOUR") then r1.(salaryType := JStr("Hourly"))
         else r1
       case _ => r)
    case _ => r
  }

  /** All writes of one JobPosting item, in source order. */
  function ApplyGraphPosting(r: Record, it: seq<Member>): (o: Option<Record>)
    ensures o.Some? ==> GraphTitle(r, it).Some? && o.value.title == GraphTitle(r, it).value.title
  {
    var r1 :- GraphTitle(r, it);
    var r2 :- GraphDescription(r1, it);
    var r3 := GraphValidThrough(r2, it);
    var r4 := r3.(jobType := TypeLabel(GetOr(it, "employmentType", JStr(""))));
    var r5 :- GraphEducation(r4, it);
    var r6 :- GraphExperience(r5, it);
    var r7 :- GraphCategory(r6, it);
    var r8 :- GraphLocation(r7, it);
    Some(GraphSalary(r8, it))
  }

  /** One `@graph` entry: objects of another type are passed over; a non-object raises. */
  function ApplyGraphItem(r: Record, item: Json): Option<Record> {
    match item
    case JObj(ms) => if IsJobPosting(ms) then ApplyGraphPosting(r, ms) else Some(r)
    case _ => None
  }

  /** The entries of an `@graph` array, in order. */
  function ApplyGraphItems(r: Record, items: seq<Json>): Option<Record>
    decreases |items|
  {
    if items == [] then Some(r)
    else
      var r1 :- ApplyGraphItems(r, items[..|items| - 1]);
      ApplyGraphItem(r1, items[|items| - 1])
  }

  /**
   * Iterating an `@graph` value: an array yields its items; an empty object
   * or string yields nothing; anything else yields keys or characters (which
   * have no `.get`) or is not iterable, and raises.
   */
  function ApplyGraph(r: Record, g: Json): Option<Record> {
    match g
    case JArr(items) => ApplyGraphItems(r, items)
    case JObj(ms) => if ms == [] then Some(r) else None
    case JStr(s) => if s == "" then Some(r) else None
    case _ => None
  }

  /**
   * The parsed document: `'@graph' in data` is a key test for an object, a
   * membership test for an array and a substring test for a string; an
   * array or string that passes cannot be indexed with '@graph', and other
   * values do not support `in`: all of those raise.
   */
  function GraphDocument(r: Record, data: Json): Option<Record> {
    match data
    case JObj(ms) => if HasKey(ms, "@graph") then ApplyGraph(r, Get(ms, "@graph").value) else Some(r)
    case JArr(items) => if JStr("@graph") in items then None else Some(r)
    case JStr(s) => if Contains(s, "@graph") then None else Some(r)
    case _ => None
  }

  /**
   * The first ld+json script of the page. A script without a `.string`
   * makes `json.loads(None)` raise a TypeError, which the decoding-error
   * handler does not catch; an empty or undecodable text is skipped.
   */
  function ImportLd(r: Record, first: Option<LdScript>): Option<Record> {
    match first
    case None => Some(r)
    case Some(sc) =>
      if sc.text.None? then None
      else if sc.text.value == "" || sc.parsed.None? then Some(r)
      else GraphDocument(r, sc.parsed.value)
  }

  // ---------------------------------------------------------------- properties

  /**
   * Months formatting: exactly 12 gives "1 year", more gives the whole
   * number of years with " years" (so 18 gives "1 years"), fewer gives the
   * raw value followed by " months".
   */
  lemma MonthsFormatting(m: int, raw: Json)
    ensures m == 12 ==> MonthsText(m, raw) == "1 year"
    ensures m > 12 ==> MonthsText(m, raw) == Decimal(m / 12) + " years"
    ensures m == 18 ==> MonthsText(m, raw) == "1 years"
    ensures m < 12 ==> MonthsText(m, raw) == PyStr(raw) + " months"
  {
    if m == 12 || m == 18 {
      assert m / 12 == 1;
      assert Decimal(1) == "1";
    }
  }

  /** A zero or missing month count leaves experience unset. */
  lemma NoMonthsKeepsExperience(r: Record, it: seq<Member>, req: seq<Member>)
    requires GetOr(it, "experienceRequirements", JObj([])) == JObj(req)
    requires GetOr(req, "monthsOfExperience", JNull) in {JNull, JInt(0)}
    ensures GraphExperience(r, it) == Some(r)
  {
  }

  /** A month count read from an integer is formatted from that integer. */
  lemma IntegerMonths(r: Record, it: seq<Member>, req: seq<Member>, m: int)
    requires GetOr(it, "experienceRequirements", JObj([])) == JObj(req)
    requires GetOr(req, "monthsOfExperience", JNull) == JInt(m) && m != 0
    ensures GraphExperience(r, it) == Some(r.(experience := JStr(
      if m >= 12 then Decimal(m / 12) + (if m == 12 then " year" else " years") else Decimal(m) + " months")))
  {
  }

  /** A top-level JobPosting is ignored: without `@graph` the record is unchanged. */
  lemma TopLevelPostingIgnored(r: Record, ms: seq<Member>)
    requires IsJobPosting(ms) && !HasKey(ms, "@graph")
    ensures GraphDocument(r, JObj(ms)) == Some(r)
  {
  }

  /** A script without text discards the whole record. */
  lemma MissingScriptTextDiscards(r: Record, parsed: Option<Json>)
    ensures ImportLd(r, Some(LdScript(None, parsed))) == None
  {
  }

  /**
   * Every JobPosting item is applied in order: the result for items
   * followed by a JobPosting is that posting applied to the result for the
   * items before it.
   */
  lemma LaterItemsOverwrite(r: Record, items: seq<Json>, ms: seq<Member>)
    requires IsJobPosting(ms)
    ensures ApplyGraphItems(r, items + [JObj(ms)]) ==
      match ApplyGraphItems(r, items)
      case None => None
      case Some(r1) => ApplyGraphPosting(r1, ms)
  {
    assert (items + [JObj(ms)])[..|items|] == items;
  }

  /** So a string title in the last JobPosting item is the title of the record. */
  lemma LastItemTitleWins(r: Record, items: seq<Json>, ms: seq<Member>, t: string)
    requires IsJobPosting(ms) && GetStripped(ms, "title") == Some(t)
    requires ApplyGraphItems(r, items + [JObj(ms)]).Some?
    ensures ApplyGraphItems(r, items + [JObj(ms)]).value.title == JStr(t)
  {
    LaterItemsOverwrite(r, items, ms);
    var r1 := ApplyGraphItems(r, items).value;
  }

  /**
   * The salary value is stored raw in both salary and max salary; an
   * unrecognised unit leaves the salary type as it was.
   */
  lemma RawSalary(r: Record, it: seq<Member>, val: seq<Member>)
    requires GetOr(it, "baseSalary", JObj([])).JObj?
    requires GetOr(GetOr(it, "baseSalary", JObj([])).members, "value", JObj([])) == JObj(val)
    ensures var r' := GraphSalary(r, it);
      r'.salary == GetOr(val, "value", JNull) && r'.maxSalary == r'.salary &&
      (GetOr(val, "unitText", JStr("")) == JStr("MONTH") ==> r'.salaryType == JStr("Monthly")) &&
      (GetOr(val, "unitText", JStr("")) == JStr("YEAR") ==> r'.salaryType == JStr("Yearly")) &&
      (GetOr(val, "unitText", JStr("")) == JStr("HOUR") ==> r'.salaryType == JStr("Hourly")) &&
      (GetOr(val, "unitText", JStr("")) !in {JStr("MONTH"), JStr("YEAR"), JStr("HOUR")} ==> r'.salaryType == r.salaryType)
  {
  }

  /** Without a `baseSalary` object holding a `value` object, the salary keys are left as they were. */
  lemma NoSalaryObject(r: Record, it: seq<Member>)
    requires !GetOr(it, "baseSalary", JObj([])).JObj? ||
             !GetOr(GetOr(it, "baseSalary", JObj([])).members, "value", JObj([])).JObj?
    ensures GraphSalary(r, it) == r
  {
  }

  /** The schema.org employment-type codes and their English labels. */
  lemma TypeLabels(code: Json)
    ensures TypeLabel(JStr("FULL_TIME")) == JStr("Full Time")
    ensures TypeLabel(JStr("PART_TIME")) == JStr("Part Time")
    ensures TypeLabel(JStr("TEMPORARY")) == JStr("Temporary")
    ensures TypeLabel(JStr("CONTRACT")) == JStr("Contract")
    ensures code !in {JStr("FULL_TIME"), JStr("PART_TIME"), JStr("TEMPORARY"), JStr("CONTRACT")} ==> TypeLabel(code) == code
  {
  }

  /** The keys import.py's JSON-LD step never writes, and salary mirrored into max salary. */
  predicate GraphKeeps(a: Record, b: Record) {
    a.featured == b.featured && a.filled == b.filled && a.urgent == b.urgent && a.tag == b.tag &&
    a.applyType == b.applyType && a.applyUrl == b.applyUrl && a.featuredImage == b.featuredImage &&
    (a.salary == a.maxSalary ==> b.salary == b.maxSalary)
  }

  /** What an item step before the salary leaves alone: the keys the step never writes, salary and max salary. */
  predicate KeepsBeforeSalary(a: Record, b: Record) {
    GraphKeeps(a, b) && a.salary == b.salary && a.maxSalary == b.maxSalary
  }

  lemma GraphTitleKeeps(r: Record, it: seq<Member>)
    requires GraphTitle(r, it).Some?
    ensures KeepsBeforeSalary(r, GraphTitle(r, it).value)
  {
  }

  lemma GraphDescriptionKeeps(r: Record, it: seq<Member>)
    requires GraphDescription(r, it).Some?
    ensures KeepsBeforeSalary(r, GraphDescription(r, it).value)
  {
  }

  lemma GraphEducationKeeps(r: Record, it: seq<Member>)
    requires GraphEducation(r, it).Some?
    ensures KeepsBeforeSalary(r, GraphEducation(r, it).value)
  {
  }

  lemma GraphExperienceKeeps(r: Record, it: seq<Member>)
    requires GraphExperience(r, it).Some?
    ensures KeepsBeforeSalary(r, GraphExperience(r, it).value)
  {
  }

  lemma GraphCategoryKeeps(r: Record, it: seq<Member>)
    requires GraphCategory(r, it).Some?
    ensures KeepsBeforeSalary(r, GraphCategory(r, it).value)
  {
  }

  lemma GraphLocationKeeps(r: Record, it: seq<Member>)
    requires GraphLocation(r, it).Some?
    ensures KeepsBeforeSalary(r, GraphLocation(r, it).value)
  {
  }

  lemma GraphValidThroughKeeps(r: Record, it: seq<Member>)
    ensures KeepsBeforeSalary(r, GraphValidThrough(r, it))
  {
  }

  lemma GraphSalaryKeeps(r: Record, it: seq<Member>)
    ensures GraphKeeps(r, GraphSalary(r, it))
    ensures r.salary == r.maxSalary ==> GraphSalary(r, it).salary == GraphSalary(r, it).maxSalary
  {
    var r' := GraphSalary(r, it);
    assert r' == r.(salary := r'.salary, maxSalary := r'.maxSalary, salaryType := r'.salaryType);
    match GetOr(it, "baseSalary", JObj([]))
    case JObj(sal) =>
      match GetOr(sal, "value", JObj([])) {
        case JObj(val) =>
          assert r'.salary == GetOr(val, "value", JNull) == r'.maxSalary;
        case _ =>
          assert r' == r;
      }
    case _ =>
      assert r' == r;
  }

  lemma GraphPostingKeeps(r: Record, it: seq<Member>)
    requires ApplyGraphPosting(r, it).Some?
    ensures GraphKeeps(r, ApplyGraphPosting(r, it).value)
  {
    var r1 := GraphTitle(r, it).value;
    GraphTitleKeeps(r, it);
    var r2 := GraphDescription(r1, it).value;
    GraphDescriptionKeeps(r1, it);
    var r3 := GraphValidThrough(r2, it);
    GraphValidThroughKeeps(r2, it);
    var r4 := r3.(jobType := TypeLabel(GetOr(it, "employmentType", JStr(""))));
    var r5 := GraphEducation(r4, it).value;
    GraphEducationKeeps(r4, it);
    var r6 := GraphExperience(r5, it).value;
    GraphExperienceKeeps(r5, it);
    var r7 := GraphCategory(r6, it).value;
    GraphCategoryKeeps(r6, it);
    var r8 := GraphLocation(r7, it).value;
    GraphLocationKeeps(r7, it);
    GraphSalaryKeeps(r8, it);
  }

  /** The keys a JobPosting item never writes. */
  predicate PostingUntouched(a: Record, b: Record) {
    a.careerLevel == b.careerLevel && a.applyType == b.applyType && a.applyUrl == b.applyUrl &&
    a.applyEmail == b.applyEmail && a.featured == b.featured && a.filled == b.filled &&
    a.urgent == b.urgent && a.featuredImage == b.featuredImage && a.videoUrl == b.videoUrl &&
    a.tag == b.tag && a.photos == b.photos && a.gender == b.gender && a.mapLocation == b.mapLocation
  }

  /** The qualification written depends on the item and on nothing else of the record. */
  lemma EducationFrom(a: Record, b: Record, it: seq<Member>)
    requires a.qualification == b.qualification
    ensures GraphEducation(a, it).Some? == GraphEducation(b, it).Some?
    ensures GraphEducation(a, it).Some? ==> GraphEducation(a, it).value.qualification == GraphEducation(b, it).value.qualification
  {
  }

  /** The experience written depends on the item and on the record's own experience only. */
  lemma ExperienceFrom(a: Record, b: Record, it: seq<Member>)
    requires a.experience == b.experience
    ensures GraphExperience(a, it).Some? == GraphExperience(b, it).Some?
    ensures GraphExperience(a, it).Some? ==> GraphExperience(a, it).value.experience == GraphExperience(b, it).value.experience
  {
  }

  /** The category written depends on the item and on the record's own category only. */
  lemma CategoryFrom(a: Record, b: Record, it: seq<Member>)
    requires a.category == b.category
    ensures GraphCategory(a, it).Some? == GraphCategory(b, it).Some?
    ensures GraphCategory(a, it).Some? ==> GraphCategory(a, it).value.category == GraphCategory(b, it).value.category
  {
  }

  /** Location and address depend on the item and on the record's own location and address only. */
  lemma LocationFrom(a: Record, b: Record, it: seq<Member>)
    requires a.location == b.location && a.address == b.address
    ensures GraphLocation(a, it).Some? == GraphLocation(b, it).Some?
    ensures GraphLocation(a, it).Some? ==>
      GraphLocation(a, it).value.location == GraphLocation(b, it).value.location &&
      GraphLocation(a, it).value.address == GraphLocation(b, it).value.address
  {
  }

  /** The salary keys depend on the item and on the record's own salary keys only. */
  lemma SalaryFrom(a: Record, b: Record, it: seq<Member>)
    requires a.salary == b.salary && a.maxSalary == b.maxSalary && a.salaryType == b.salaryType
    ensures GraphSalary(a, it).salary == GraphSalary(b, it).salary
    ensures GraphSalary(a, it).maxSalary == GraphSalary(b, it).maxSalary
    ensures GraphSalary(a, it).salaryType == GraphSalary(b, it).salaryType
  {
  }

  /**
   * What an applied JobPosting item leaves in the record: its title, its
   * description when truthy, `validThrough` in both date keys, the labelled
   * employment type, and for every other written key what that step alone
   * would write on the original record; the thirteen keys it never writes
   * are unchanged.
   */
  lemma PostingWrites(r: Record, it: seq<Member>)
    requires ApplyGraphPosting(r, it).Some?
    ensures GetStripped(it, "title").Some?
    ensures GraphEducation(r, it).Some? && GraphExperience(r, it).Some? &&
            GraphCategory(r, it).Some? && GraphLocation(r, it).Some?
    ensures var o := ApplyGraphPosting(r, it).value;
      var d := GetOr(it, "description", JStr(""));
      o.title == JStr(GetStripped(it, "title").value) &&
      o.description == (if Truthy(d) && d.JStr? then JStr(CleanLines(d.s)) else r.description) &&
      o.expiryDate == GetOr(it, "validThrough", JNull) &&
      o.applicationDeadlineDate == o.expiryDate &&
      o.jobType == TypeLabel(GetOr(it, "employmentType", JStr("")))
    ensures var o := ApplyGraphPosting(r, it).value;
      o.qualification == GraphEducation(r, it).value.qualification &&
      o.experience == GraphExperience(r, it).value.experience &&
      o.category == GraphCategory(r, it).value.category &&
      o.location == GraphLocation(r, it).value.location &&
      o.address == GraphLocation(r, it).value.address
    ensures var o := ApplyGraphPosting(r, it).value;
      o.salary == GraphSalary(r, it).salary && o.maxSalary == GraphSalary(r, it).maxSalary &&
      o.salaryType == GraphSalary(r, it).salaryType
    ensures PostingUntouched(r, ApplyGraphPosting(r, it).value)
  {
    var r1 := GraphTitle(r, it).value;
    var r2 := GraphDescription(r1, it).value;
    var r3 := GraphValidThrough(r2, it);
    var r4 := r3.(jobType := TypeLabel(GetOr(it, "employmentType", JStr(""))));
    var r5 := GraphEducation(r4, it).value;
    EducationFrom(r4, r, it);
    var r6 := GraphExperience(r5, it).value;
    ExperienceFrom(r5, r, it);
    var r7 := GraphCategory(r6, it).value;
    CategoryFrom(r6, r, it);
    var r8 := GraphLocation(r7, it).value;
    LocationFrom(r7, r, it);
    SalaryFrom(r8, r, it);
  }

  lemma {:induction false} GraphItemsKeep(r: Record, items: seq<Json>)
    requires ApplyGraphItems(r, items).Some?
    ensures GraphKeeps(r, ApplyGraphItems(r, items).value)
    decreases |items|
  {
    if items != [] {
      var pre := items[..|items| - 1];
      GraphItemsKeep(r, pre);
      var r1 := ApplyGraphItems(r, pre).value;
      match items[|items| - 1]
      case JObj(ms) =>
        if IsJobPosting(ms) {
          GraphPostingKeeps(r1, ms);
        }
      case _ =>
    }
  }

  lemma ImportLdKeeps(r: Record, first: Option<LdScript>)
    requires ImportLd(r, first).Some?
    ensures GraphKeeps(r, ImportLd(r, first).value)
  {
    if first.Some? && first.value.text.Some? && first.value.text.value != "" && first.value.parsed.Some? {
      match first.value.parsed.value
      case JObj(ms) =>
        if HasKey(ms, "@graph") {
          match Get(ms, "@graph").value
          case JArr(items) => GraphItemsKeep(r, items);
          case _ =>
        }
      case _ =>
    }
  }
}
