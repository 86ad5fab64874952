/**
 * `scrape_job_detail` of the three variants: the record is created with its
 * start values and then filled stage by stage, each stage writing some of
 * its keys. The class `JobRecord` holds the 26 keys as mutable fields; each
 * stage method is proved against the pure stage function of its module,
 * and the whole pass against the pure pipelines `DetailS3`, `DetailAll`
 * and `DetailImport`, about which the end-to-end properties are stated.
 */
module Scraping {

  import opened Common
  import opened Text
  import opened Lines
  import opened JsonValues
  import opened Schema
  import opened Page
  import opened JsonLd
  import opened GraphLd
  import opened Fallbacks
  import opened Categories
  import opened CategoryList
  import opened ImportFallbacks
  import opened LabelFacts

  // ---------------------------------------------------------------- pure pipelines

  /** The title as `extract_category_from_title` receives it: a string, or nothing. */
  function TitleText(title: Json): (t: Option<string>)
    ensures t.Some? <==> title.JStr?
    ensures t.Some? ==> t.value == title.s
  {
    match title
    case JStr(s) => Some(s)
    case _ => None
  }

  /**
   * scraper3.py's category step: the pool of title, non-place tags,
   * breadcrumbs and JSON-LD candidates, and the first acceptable one (or
   * None, which overwrites whatever was there).
   */
  function S3Category(r: Record, p: DetailPage): Record {
    var pool := Pool(TitleCategory(TitleText(r.title)), TagCategories(p.tagLinks), CrumbCategories(p.breadcrumbLinks), p.scripts);
    match FirstAcceptable(Cleaned(pool))
    case Some(c) => r.(category := JStr(c))
    case None => r.(category := JNull)
  }

  /** all_scraper.py's category step: the de-duplicated candidates, joined, when there are any. */
  function AllCategory(r: Record, p: DetailPage): Record {
    CategoryField(r, Dedup(Candidates(p.crumbTexts, p.metaKeywords, p.tagTexts)))
  }

  /**
   * The stages scraper3.py and all_scraper.py share, in order: every
   * JSON-LD block, the `h1` title, the badges, the visible description and
   * `extract_experience`.
   */
  function SharedStages(p: DetailPage): Record {
    var r1 := LdBlocks(Initial(CostaRicaTag), p.scripts);
    var r2 := FallbackTitle(r1, p.h1);
    var r3 := Badges(r2, p.premiumBadge, p.filledText, p.urgentText);
    var r4 := DescriptionFallback(r3, p);
    ExperienceFromDd(r4, p.experienceDd)
  }

  /** scraper3.py: the shared stages, the single category, the image and the apply keys. */
  function DetailS3(p: DetailPage, url: string): Record {
    ApplyExternal(FeaturedImage(S3Category(SharedStages(p), p), p.imageSrc), url)
  }

  /** all_scraper.py: the shared stages, the joined category list, the image and the apply keys. */
  function DetailAll(p: DetailPage, url: string): Record {
    ApplyExternal(FeaturedImage(AllCategory(SharedStages(p), p), p.imageSrc), url)
  }

  /** The first ld+json script, the only one import.py reads. */
  function FirstScript(scripts: seq<LdScript>): Option<LdScript> {
    if scripts == [] then None else Some(scripts[0])
  }

  /**
   * import.py: the first block's `@graph` postings (None when an exception
   * other than a decoding error escapes), then title, premium badge,
   * description, location, experience, category, qualification, contract
   * type, image and the apply keys.
   */
  function DetailImport(p: DetailPage, url: string): Option<Record> {
    var r1 :- ImportLd(Initial(EmptyTag), FirstScript(p.scripts));
    var r2 := FallbackTitle(r1, p.h1);
    var r3 := Badges(r2, p.premiumBadge, false, false);
    var r4 := ImportDescription(r3, p);
    var r5 := ImportLocation(r4, p.locationText);
    var r6 := ImportExperience(r5, p.experienceText);
    var r7 := ImportCategory(r6, p.crumbItems);
    var r8 := ImportQualification(r7, p.qualificationText);
    var r9 := ImportContractType(r8, p.typeText);
    var r10 := FeaturedImage(r9, p.imageSrc);
    Some(ApplyUrl(r10, url))
  }

  // ---------------------------------------------------------------- the mutable record

  /** The `job_data` dictionary: one field per key. */
  class JobRecord {
    var title: Json
    var description: Json
    var category: Json
    var jobType: Json
    var location: Json
    var address: Json
    var salary: Json
    var salaryType: Json
    var maxSalary: Json
    var experience: Json
    var qualification: Json
    var careerLevel: Json
    var expiryDate: Json
    var applicationDeadlineDate: Json
    var applyType: Json
    var applyUrl: Json
    var applyEmail: Json
    var featured: Json
    var filled: Json
    var urgent: Json
    var featuredImage: Json
    var videoUrl: Json
    var tag: Json
    var photos: Json
    var gender: Json
    var mapLocation: Json

    /** The keys as a record value. */
    function Value(): Record
      reads this
    {
      Record(title, description, category, jobType, location, address, salary, salaryType, maxSalary,
             experience, qualification, careerLevel, expiryDate, applicationDeadlineDate,
             applyType, applyUrl, applyEmail, featured, filled, urgent, featuredImage, videoUrl,
             tag, photos, gender, mapLocation)
    }

    /** The dictionary literal: every key None but the flags, the photo list and the tag. */
    constructor (startTag: Json)
      ensures Value() == Initial(startTag)
    {
      title, description, category, jobType, location := JNull, JNull, JNull, JNull, JNull;
      address, salary, salaryType, maxSalary := JNull, JNull, JNull, JNull;
      experience, qualification, careerLevel := JNull, JNull, JNull;
      expiryDate, applicationDeadlineDate := JNull, JNull;
      applyType, applyUrl, applyEmail := JNull, JNull, JNull;
      featured, filled, urgent := JBool(false), JBool(false), JBool(false);
      featuredImage, videoUrl := JNull, JNull;
      tag, photos, gender, mapLocation := startTag, JArr([]), JNull, JNull;
    }

    /** Writes every key of `v`: the writes of one JSON-LD block. */
    method Store(v: Record)
      modifies this
      ensures Value() == v
    {
      StoreTexts(v);
      StoreRequirements(v);
      StorePlace(v);
      StoreSalary(v);
      StoreDates(v);
      StoreApply(v);
      StoreFlags(v);
      StoreMedia(v);
      StoreTagAndGender(v);
    }

    /** Writes the title, description and category of `v`. */
    method StoreTexts(v: Record)
      modifies this
      ensures Value() == old(Value()).(title := v.title, description := v.description, category := v.category)
    {
      title := v.title;
      description := v.description;
      category := v.category;
    }

    /** Writes the job type, experience and qualification of `v`. */
    method StoreRequirements(v: Record)
      modifies this
      ensures Value() == old(Value()).(jobType := v.jobType, experience := v.experience, qualification := v.qualification)
    {
      jobType := v.jobType;
      experience := v.experience;
      qualification := v.qualification;
    }

    /** Writes the place keys of `v`. */
    method StorePlace(v: Record)
      modifies this
      ensures Value() == old(Value()).(location := v.location, address := v.address, mapLocation := v.mapLocation)
    {
      location := v.location;
      address := v.address;
      mapLocation := v.mapLocation;
    }

    /** Writes the salary keys of `v`. */
    method StoreSalary(v: Record)
      modifies this
      ensures Value() == old(Value()).(salary := v.salary, salaryType := v.salaryType, maxSalary := v.maxSalary)
    {
      salary := v.salary;
      salaryType := v.salaryType;
      maxSalary := v.maxSalary;
    }

    /** Writes the date keys and the career level of `v`. */
    method StoreDates(v: Record)
      modifies this
      ensures Value() == old(Value()).(expiryDate := v.expiryDate, applicationDeadlineDate := v.applicationDeadlineDate, careerLevel := v.careerLevel)
    {
      expiryDate := v.expiryDate;
      applicationDeadlineDate := v.applicationDeadlineDate;
      careerLevel := v.careerLevel;
    }

    /** Writes the apply keys of `v`. */
    method StoreApply(v: Record)
      modifies this
      ensures Value() == old(Value()).(applyType := v.applyType, applyUrl := v.applyUrl, applyEmail := v.applyEmail)
    {
      applyType := v.applyType;
      applyUrl := v.applyUrl;
      applyEmail := v.applyEmail;
    }

    /** Writes the badge flags of `v`. */
    method StoreFlags(v: Record)
      modifies this
      ensures Value() == old(Value()).(featured := v.featured, filled := v.filled, urgent := v.urgent)
    {
      featured := v.featured;
      filled := v.filled;
      urgent := v.urgent;
    }

    /** Writes the media keys of `v`. */
    method StoreMedia(v: Record)
      modifies this
      ensures Value() == old(Value()).(featuredImage := v.featuredImage, videoUrl := v.videoUrl, photos := v.photos)
    {
      featuredImage := v.featuredImage;
      videoUrl := v.videoUrl;
      photos := v.photos;
    }

    /** Writes the tag and gender of `v`. */
    method StoreTagAndGender(v: Record)
      modifies this
      ensures Value() == old(Value()).(tag := v.tag, gender := v.gender)
    {
      tag := v.tag;
      gender := v.gender;
    }
  }

  // ---------------------------------------------------------------- the stages

  /** scraper3.py and all_scraper.py: the loop over every ld+json script. */
  method ReadLdBlocks(rec: JobRecord, scripts: seq<LdScript>)
    modifies rec
    ensures rec.Value() == LdBlocks(old(rec.Value()), scripts)
  {
    ghost var start := rec.Value();
    var i := 0;
    while i < |scripts|
      invariant 0 <= i <= |scripts|
      invariant rec.Value() == LdBlocks(start, scripts[..i])
    {
      assert scripts[..i + 1][..i] == scripts[..i];
      rec.Store(LdBlock(rec.Value(), scripts[i]));
      i := i + 1;
    }
    assert scripts[..i] == scripts;
  }

  /** import.py: the first script's `@graph`; false when the whole record is discarded. */
  method ReadImportLd(rec: JobRecord, first: Option<LdScript>) returns (kept: bool)
    modifies rec
    ensures kept <==> ImportLd(old(rec.Value()), first).Some?
    ensures kept ==> rec.Value() == ImportLd(old(rec.Value()), first).value
  {
    var o := ImportLd(rec.Value(), first);
    kept := o.Some?;
    if kept {
      rec.Store(o.value);
    }
  }

  /** The `h1` fallback. */
  method FillTitle(rec: JobRecord, h1: Option<string>)
    modifies rec
    ensures rec.Value() == FallbackTitle(old(rec.Value()), h1)
  {
    if !Truthy(rec.title) && h1.Some? {
      rec.title := JStr(h1.value);
    }
  }

  /** The badge detection: each found indicator sets its flag. */
  method RaiseBadges(rec: JobRecord, premium: bool, filledFound: bool, urgentFound: bool)
    modifies rec
    ensures rec.Value() == Badges(old(rec.Value()), premium, filledFound, urgentFound)
  {
    if premium {
      rec.featured := JBool(true);
    }
    if filledFound {
      rec.filled := JBool(true);
    }
    if urgentFound {
      rec.urgent := JBool(true);
    }
  }

  /** scraper3.py and all_scraper.py: the longest visible candidate, newlines canonicalised. */
  method FillDescription(rec: JobRecord, p: DetailPage)
    modifies rec
    ensures rec.Value() == DescriptionFallback(old(rec.Value()), p)
  {
    if !Truthy(rec.description) {
      var best := ChooseLongest(DescriptionCandidates(p));
      if best.Some? {
        rec.description := JStr(NormalizeNewlines(best.value));
      }
    }
  }

  /** `extract_experience`: the `dd` text, or None. */
  method SetExperience(rec: JobRecord, dd: Option<string>)
    modifies rec
    ensures rec.Value() == ExperienceFromDd(old(rec.Value()), dd)
  {
    rec.experience := if dd.Some? && dd.value != "" then JStr(dd.value) else JNull;
  }

  /** scraper3.py: builds the pool and stores its first acceptable candidate, or None. */
  method PickS3Category(rec: JobRecord, p: DetailPage)
    modifies rec
    ensures rec.Value() == S3Category(old(rec.Value()), p)
  {
    var tags := ExtractTagCategories(p.tagLinks);
    var crumbs := ExtractBreadcrumbCategories(p.breadcrumbLinks);
    var pool := BuildPool(TitleCategory(TitleText(rec.title)), tags, crumbs, p.scripts);
    var final := PickCategory(pool);
    rec.category := if final.Some? then JStr(final.value) else JNull;
  }

  /** all_scraper.py: collects and de-duplicates the candidates, and joins them when there are any. */
  method JoinCategories(rec: JobRecord, p: DetailPage)
    modifies rec
    ensures rec.Value() == AllCategory(old(rec.Value()), p)
  {
    var seen := CollectCategories(p.crumbTexts, p.metaKeywords, p.tagTexts);
    if seen != [] {
      rec.category := JStr(Join(",", seen));
    }
  }

  /** The featured image, when the source resolves. */
  method SetImage(rec: JobRecord, src: Option<string>)
    modifies rec
    ensures rec.Value() == FeaturedImage(old(rec.Value()), src)
  {
    if src.Some? {
      var u := ImageUrl(src.value);
      if u.Some? {
        rec.featuredImage := JStr(u.value);
      }
    }
  }

  /** scraper3.py and all_scraper.py: external apply and max salary copied unconditionally. */
  method SetApplyExternal(rec: JobRecord, url: string)
    modifies rec
    ensures rec.Value() == ApplyExternal(old(rec.Value()), url)
  {
    rec.applyType := JStr("external");
    rec.applyUrl := JStr(url);
    rec.maxSalary := rec.salary;
  }

  /** import.py: URL apply, and max salary filled only when salary is truthy and it is not. */
  method SetApplyUrl(rec: JobRecord, url: string)
    modifies rec
    ensures rec.Value() == ApplyUrl(old(rec.Value()), url)
  {
    rec.applyType := JStr("url");
    rec.applyUrl := JStr(url);
    if Truthy(rec.salary) && !Truthy(rec.maxSalary) {
      rec.maxSalary := rec.salary;
    }
  }

  /** import.py: the two part-collecting methods, de-duplication and the 25-line cap. */
  method FillImportDescription(rec: JobRecord, p: DetailPage)
    modifies rec
    ensures rec.Value() == ImportDescription(old(rec.Value()), p)
  {
    if !Truthy(rec.description) {
      var parts: seq<string> := [];
      if p.detailTexts.Some? {
        parts := CollectDetailParts(p.detailTexts.value);
      }
      if parts == [] {
        parts := CollectKeywordBlocks(p.blockTexts);
      }
      if parts != [] {
        var unique := UniqueParts(parts);
        rec.description := JStr(Join("\n", Capped(unique)));
      }
    }
  }

  /** import.py: the labelled location, into location and address. */
  method FillLocation(rec: JobRecord, text: Option<string>)
    modifies rec
    ensures rec.Value() == ImportLocation(old(rec.Value()), text)
  {
    if !Truthy(rec.location) && text.Some? {
      var loc := LocationValue(text.value);
      rec.location := JStr(loc);
      rec.address := JStr(loc);
    }
  }

  /** import.py: the labelled experience. */
  method FillExperience(rec: JobRecord, text: Option<string>)
    modifies rec
    ensures rec.Value() == ImportExperience(old(rec.Value()), text)
  {
    rec.experience := LabelledValue(rec.experience, text, ExperienceLabel);
  }

  /** import.py: the labelled qualification. */
  method FillQualification(rec: JobRecord, text: Option<string>)
    modifies rec
    ensures rec.Value() == ImportQualification(old(rec.Value()), text)
  {
    rec.qualification := LabelledValue(rec.qualification, text, QualificationLabel);
  }

  /** import.py: breadcrumb, then the title keywords. */
  method FillImportCategory(rec: JobRecord, crumbs: Option<seq<string>>)
    modifies rec
    ensures rec.Value() == ImportCategory(old(rec.Value()), crumbs)
  {
    if !Truthy(rec.category) {
      var c := CrumbCategory(crumbs);
      if c.Some? {
        rec.category := JStr(c.value);
      } else {
        var t := ImportTitleCategory(rec.title);
        if t.Some? {
          rec.category := JStr(t.value);
        }
      }
    }
  }

  /** import.py: the contract phrases. */
  method FillContractType(rec: JobRecord, text: Option<string>)
    modifies rec
    ensures rec.Value() == ImportContractType(old(rec.Value()), text)
  {
    if !Truthy(rec.jobType) && text.Some? {
      var c := FirstRuleFrom(text.value, ContractRules, 0);
      if c.Some? {
        rec.jobType := JStr(c.value);
      }
    }
  }

  // ---------------------------------------------------------------- the three passes

  /** scraper3.py's `scrape_job_detail` on a fetched page. */
  method ScrapeDetailS3(p: DetailPage, url: string) returns (job: Record)
    ensures job == DetailS3(p, url)
  {
    var rec := new JobRecord(CostaRicaTag);
    ReadLdBlocks(rec, p.scripts);
    FillTitle(rec, p.h1);
    RaiseBadges(rec, p.premiumBadge, p.filledText, p.urgentText);
    FillDescription(rec, p);
    SetExperience(rec, p.experienceDd);
    assert rec.Value() == SharedStages(p);
    PickS3Category(rec, p);
    SetImage(rec, p.imageSrc);
    SetApplyExternal(rec, url);
    job := rec.Value();
  }

  /** all_scraper.py's `scrape_job_detail` on a fetched page. */
  method ScrapeDetailAll(p: DetailPage, url: string) returns (job: Record)
    ensures job == DetailAll(p, url)
  {
    var rec := new JobRecord(CostaRicaTag);
    ReadLdBlocks(rec, p.scripts);
    FillTitle(rec, p.h1);
    RaiseBadges(rec, p.premiumBadge, p.filledText, p.urgentText);
    FillDescription(rec, p);
    SetExperience(rec, p.experienceDd);
    assert rec.Value() == SharedStages(p);
    JoinCategories(rec, p);
    SetImage(rec, p.imageSrc);
    SetApplyExternal(rec, url);
    job := rec.Value();
  }

  /** import.py's `scrape_job_detail` on a fetched page: None when an uncaught exception ends it. */
  method ScrapeDetailImport(p: DetailPage, url: string) returns (job: Option<Record>)
    ensures job == DetailImport(p, url)
  {
    var rec := new JobRecord(EmptyTag);
    var first := if p.scripts == [] then None else Some(p.scripts[0]);
    var kept := ReadImportLd(rec, first);
    if !kept {
      return None;
    }
    FillTitle(rec, p.h1);
    RaiseBadges(rec, p.premiumBadge, false, false);
    FillImportDescription(rec, p);
    FillLocation(rec, p.locationText);
    FillExperience(rec, p.experienceText);
    FillImportCategory(rec, p.crumbItems);
    FillQualification(rec, p.qualificationText);
    FillContractType(rec, p.typeText);
    SetImage(rec, p.imageSrc);
    SetApplyUrl(rec, url);
    job := Some(rec.Value());
  }

  // ---------------------------------------------------------------- properties of the passes

  /**
   * So the title the category pool reads is the record's title exactly:
   * `TitleText` loses nothing.
   */
  lemma SharedTitleIsText(p: DetailPage)
    ensures TextOrNone(SharedStages(p).title)
    ensures TitleText(SharedStages(p).title).None? <==> SharedStages(p).title == JNull
  {
    LdTitleIsText(Initial(CostaRicaTag), p.scripts);
  }

  /** The keys the stages after the description leave alone, unless they are the stage's own. */
  predicate KeepsFlags(a: Record, b: Record) {
    a.featured == b.featured && a.filled == b.filled && a.urgent == b.urgent && a.tag == b.tag &&
    a.salary == b.salary && a.maxSalary == b.maxSalary && a.applyType == b.applyType && a.applyUrl == b.applyUrl
  }

  /** The category stages of scraper3.py and all_scraper.py and the image stage write only their own key. */
  lemma TailStagesKeep(r: Record, p: DetailPage, src: Option<string>)
    ensures KeepsFlags(r, S3Category(r, p)) && r.experience == S3Category(r, p).experience
    ensures KeepsFlags(r, AllCategory(r, p)) && r.experience == AllCategory(r, p).experience
    ensures KeepsFlags(r, FeaturedImage(r, src)) && r.experience == FeaturedImage(r, src).experience &&
            r.category == FeaturedImage(r, src).category
  {
  }

  /** After the shared stages: each flag is its indicator, the start tag, no category yet, and the `dd` experience. */
  lemma SharedStagesFlags(p: DetailPage)
    ensures var s := SharedStages(p);
      s.featured == JBool(p.premiumBadge) && s.filled == JBool(p.filledText) && s.urgent == JBool(p.urgentText) &&
      s.tag == CostaRicaTag && s.category == JNull &&
      (s.experience == JNull || (s.experience.JStr? && s.experience.s != "")) &&
      (s.experience != JNull <==> p.experienceDd.Some? && p.experienceDd.value != "")
  {
    BlocksKeepOtherKeys(Initial(CostaRicaTag), p.scripts);
  }

  /**
   * What scraper3.py and all_scraper.py leave in the keys no extractor
   * disputes: external apply to the page URL, max salary equal to salary
   * whatever the JSON-LD wrote, the start tag, each badge flag true exactly
   * when its indicator is on the page, and an experience that is None or a
   * non-empty string, present exactly when the `dd` text is.
   */
  predicate ExternalAssembly(r: Record, p: DetailPage, url: string) {
    r.applyType == JStr("external") && r.applyUrl == JStr(url) && r.maxSalary == r.salary &&
    r.tag == CostaRicaTag &&
    r.featured == JBool(p.premiumBadge) && r.filled == JBool(p.filledText) && r.urgent == JBool(p.urgentText) &&
    (r.experience == JNull || (r.experience.JStr? && r.experience.s != "")) &&
    (r.experience != JNull <==> p.experienceDd.Some? && p.experienceDd.value != "")
  }

  lemma S3Assembly(p: DetailPage, url: string)
    ensures ExternalAssembly(DetailS3(p, url), p, url)
  {
    var s := SharedStages(p);
    SharedStagesFlags(p);
    TailStagesKeep(s, p, p.imageSrc);
    TailStagesKeep(S3Category(s, p), p, p.imageSrc);
  }

  lemma AllAssembly(p: DetailPage, url: string)
    ensures ExternalAssembly(DetailAll(p, url), p, url)
  {
    var s := SharedStages(p);
    SharedStagesFlags(p);
    TailStagesKeep(s, p, p.imageSrc);
    TailStagesKeep(AllCategory(s, p), p, p.imageSrc);
  }

  /** The pool scraper3.py builds for a record. */
  function S3Pool(r: Record, p: DetailPage): seq<Json> {
    Pool(TitleCategory(TitleText(r.title)), TagCategories(p.tagLinks), CrumbCategories(p.breadcrumbLinks), p.scripts)
  }

  /** The category step alone: the first acceptable candidate of the pool, or None. */
  lemma S3CategoryStep(r: Record, p: DetailPage)
    ensures var pool := S3Pool(r, p);
      var c := S3Category(r, p).category;
      (c == JNull <==> forall k :: 0 <= k < |pool| ==> !Acceptable(CleanCandidate(PyStr(pool[k])))) &&
      (c != JNull ==> c.JStr? && Stripped(c.s) && ',' !in c.s && |c.s| >= 3 &&
                      Lower(c.s) !in Gazetteer && !Mentions(Lower(c.s), Gazetteer))
    ensures TitleCategory(TitleText(r.title)).Some? ==>
      S3Category(r, p).category == JStr(TitleCategory(TitleText(r.title)).value)
  {
    var titleCat := TitleCategory(TitleText(r.title));
    FinalCategoryShape(S3Pool(r, p));
    if titleCat.Some? {
      TitleCategoryIsFinal(TitleText(r.title), TagCategories(p.tagLinks), CrumbCategories(p.breadcrumbLinks), p.scripts);
    }
  }

  /**
   * scraper3.py's single category: None exactly when no pooled candidate
   * survives the cleaning and the filters; otherwise a stripped,
   * comma-free text of at least three characters that neither is nor
   * contains a place name; and a category found from the title is always
   * the one stored.
   */
  lemma S3CategoryPolicy(p: DetailPage, url: string)
    ensures var pool := S3Pool(SharedStages(p), p);
      var c := DetailS3(p, url).category;
      (c == JNull <==> forall k :: 0 <= k < |pool| ==> !Acceptable(CleanCandidate(PyStr(pool[k])))) &&
      (c != JNull ==> c.JStr? && Stripped(c.s) && ',' !in c.s && |c.s| >= 3 &&
                      Lower(c.s) !in Gazetteer && !Mentions(Lower(c.s), Gazetteer))
    ensures var t := TitleCategory(TitleText(SharedStages(p).title));
      t.Some? ==> DetailS3(p, url).category == JStr(t.value)
  {
    var s := SharedStages(p);
    S3CategoryStep(s, p);
    TailStagesKeep(S3Category(s, p), p, p.imageSrc);
  }

  /**
   * all_scraper.py's category list: unset when no candidate survives,
   * otherwise the ','-join of non-empty, whitespace-collapsed entries no
   * two of which are equal ignoring case, each the cleaned form of a
   * candidate, and every non-empty candidate represented.
   */
  lemma AllCategoryPolicy(p: DetailPage, url: string)
    ensures var cs := Candidates(p.crumbTexts, p.metaKeywords, p.tagTexts);
      var ds := Dedup(cs);
      var c := DetailAll(p, url).category;
      (ds == [] ==> c == JNull) && (ds != [] ==> c == JStr(Join(",", ds))) &&
      (forall e :: e in ds ==> e != "" && Squash(e) == e && exists k :: 0 <= k < |cs| && e == Squash(cs[k])) &&
      (forall i, j :: 0 <= i < j < |ds| ==> Lower(ds[i]) != Lower(ds[j])) &&
      (forall k :: 0 <= k < |cs| && Squash(cs[k]) != "" ==> HasCaseless(ds, Squash(cs[k])))
  {
    var s := SharedStages(p);
    SharedStagesFlags(p);
    TailStagesKeep(AllCategory(s, p), p, p.imageSrc);
    DedupProperties(Candidates(p.crumbTexts, p.metaKeywords, p.tagTexts));
  }

  /**
   * import.py discards the whole record exactly when its JSON-LD step
   * raises something other than a decoding error, in particular when the
   * first script has no text; a page without scripts is never discarded.
   */
  lemma ImportDiscards(p: DetailPage, url: string)
    ensures DetailImport(p, url).None? <==> ImportLd(Initial(EmptyTag), FirstScript(p.scripts)).None?
    ensures p.scripts != [] && p.scripts[0].text.None? ==> DetailImport(p, url).None?
    ensures p.scripts == [] ==> DetailImport(p, url).Some?
  {
    if p.scripts != [] && p.scripts[0].text.None? {
      MissingScriptTextDiscards(Initial(EmptyTag), p.scripts[0].parsed);
    }
  }

  /** import.py's fallbacks after the badges write none of the flags, the tag, the salary keys or the apply keys. */
  lemma ImportFallbacksKeep(r: Record, p: DetailPage)
    ensures KeepsFlags(r, FallbackTitle(r, p.h1))
    ensures KeepsFlags(r, ImportDescription(r, p))
    ensures KeepsFlags(r, ImportLocation(r, p.locationText))
    ensures KeepsFlags(r, ImportExperience(r, p.experienceText))
    ensures KeepsFlags(r, ImportCategory(r, p.crumbItems))
    ensures KeepsFlags(r, ImportQualification(r, p.qualificationText))
    ensures KeepsFlags(r, ImportContractType(r, p.typeText))
    ensures KeepsFlags(r, FeaturedImage(r, p.imageSrc))
  {
  }

  /**
   * A kept import.py record applies by URL to the page URL, keeps the empty
   * tag, never raises the filled or urgent flag, raises featured exactly
   * when the premium badge is there, and holds max salary equal to salary:
   * the JSON-LD step writes both together, so the conditional copy at the
   * end never changes anything.
   */
  lemma ImportAssembly(p: DetailPage, url: string)
    requires DetailImport(p, url).Some?
    ensures var r := DetailImport(p, url).value;
      r.applyType == JStr("url") && r.applyUrl == JStr(url) && r.tag == EmptyTag &&
      r.featured == JBool(p.premiumBadge) && r.filled == JBool(false) && r.urgent == JBool(false) &&
      r.maxSalary == r.salary
  {
    var r1 := ImportLd(Initial(EmptyTag), FirstScript(p.scripts)).value;
    ImportLdKeeps(Initial(EmptyTag), FirstScript(p.scripts));
    var r2 := FallbackTitle(r1, p.h1);
    ImportFallbacksKeep(r1, p);
    var r3 := Badges(r2, p.premiumBadge, false, false);
    var r4 := ImportDescription(r3, p);
    ImportFallbacksKeep(r3, p);
    var r5 := ImportLocation(r4, p.locationText);
    ImportFallbacksKeep(r4, p);
    var r6 := ImportExperience(r5, p.experienceText);
    ImportFallbacksKeep(r5, p);
    var r7 := ImportCategory(r6, p.crumbItems);
    ImportFallbacksKeep(r6, p);
    var r8 := ImportQualification(r7, p.qualificationText);
    ImportFallbacksKeep(r7, p);
    var r9 := ImportContractType(r8, p.typeText);
    ImportFallbacksKeep(r8, p);
    var r10 := FeaturedImage(r9, p.imageSrc);
    ImportFallbacksKeep(r9, p);
    assert KeepsFlags(r3, r10);
  }
}
