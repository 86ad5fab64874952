# Trabajos Diarios job scrapers — a Dafny model of the per-page record builder

The repository holds three near-duplicate Python scrapers for the Costa Rican
job board trabajosdiarios.co.cr: `scraper3.py`, `all_scraper.py` and
`import.py`. Each one walks the listing pages of the board and collects the
links to job-detail pages. For each detail page it fills one record with the
26 `_job_*` keys of a job-board import format, then writes all records to CSV.

This project models the core of that work:

- **The record** (`Schema.Record`, and the class `Scraping.JobRecord` whose 26
  mutable fields the stages write one key at a time). Each value is a
  JSON-compatible Python value (`JsonValues.Json`; Python `None` is `JNull`).
- **The embedded job-posting interpreter** for `application/ld+json` blocks:
  - `JsonLd` covers scraper3.py and all_scraper.py. Every block is read, either
    a top-level `JobPosting` or the first one inside `@graph`. An exception
    part-way through a block keeps what that block already wrote.
  - `GraphLd` covers import.py. Only the first block is read, and only its
    `@graph` items. Every `JobPosting` item is applied in turn. The employment
    and unit labels are in English, months of experience become text, and the
    salary is copied raw into both salary keys.
- **The HTML fallbacks**, each of which runs only while its key is still
  unset:
  - the `h1` title;
  - the longest description candidate (`Fallbacks`);
  - import.py's line-collected description with its 25-line cap, its location,
    its label→value experience and qualification, its breadcrumb/title-keyword
    category chain and its contract-type chain (`ImportFallbacks`).
- **The HTML stages that run whatever the keys hold:**
  - the badges, which set the flags they find;
  - `extract_experience`, which overwrites the experience (with None when the
    label is missing);
  - image URL resolution, which overwrites the image when a usable `src` is
    found;
  - the apply keys and the `max_salary` mirror.
- **The three category policies:**
  - scraper3.py takes the first pooled candidate that survives the place-name
    filter (`Categories`, `LabelFacts`);
  - all_scraper.py joins a case-insensitively de-duplicated list
    (`CategoryList`);
  - import.py uses the structured field, then the breadcrumb, then title
    keywords.
- **The pure helpers:**
  - newline canonicalisation (`Lines`);
  - the CSV cell encoding of both families (`CsvCells`);
  - the pagination URL (`Listing`).
- **The listing bookkeeping** (`Listing`):
  - per-page link de-duplication;
  - the cross-page `seen` set of scraper3.py and all_scraper.py, which
    import.py lacks;
  - the `max_jobs` cap.

  The fetching of pages and details is a pair of function parameters.

The page itself is abstract (`Page.DetailPage`, `Page.ListingPage`). The
results of the BeautifulSoup lookups each stage performs are fields. An
ld+json script is its `.string` together with the already-parsed value.

Each stage is a method on the `JobRecord` object. The method is proved to leave
the record equal to a pure stage function of the old record. Each whole pass
(`ScrapeDetailS3`, `ScrapeDetailAll`, `ScrapeDetailImport`) is proved equal to
a pure pipeline (`DetailS3`, `DetailAll`, `DetailImport`). The end-to-end
properties are stated about those pipelines.

## Model

| member | source | states |
|---|---|---|
| Schema.Fields | scraper3.py:539-547 | 26 cells in header order (the body lists them), the second being the description |
| Scraping.JobRecord.constructor | scraper3.py:154-181 | a new record holds the start values: every key None, the three flags False, photos empty, the given tag |
| Scraping.ReadLdBlocks | scraper3.py:184-255 | the loop over all ld+json scripts leaves the record equal to folding the block interpreter over them in document order |
| Scraping.ReadImportLd | import.py:55-155 | reading the first script's `@graph` either succeeds with the interpreted record or reports the exception that discards the whole record |
| Scraping.FillTitle | scraper3.py:257-261 | the `h1` title fallback, written into the object |
| Scraping.RaiseBadges | scraper3.py:263-273 | the premium/filled/urgent flags, written into the object |
| Scraping.FillDescription | scraper3.py:275-327 | the longest-candidate description fallback, computed by the candidate loop and written into the object |
| Scraping.SetExperience | scraper3.py:115-140 | `extract_experience` overwrites experience with the `dd` text, or None |
| Scraping.PickS3Category | scraper3.py:332-429 | the pooled single-category pick of scraper3.py, computed by its loops and written into the object (None when no candidate survives) |
| Scraping.JoinCategories | all_scraper.py:225-254 | the joined category list of all_scraper.py, computed by its loops and written into the object |
| Scraping.SetImage | scraper3.py:431-440 | the resolved image URL, written into the object when there is one |
| Scraping.SetApplyExternal | scraper3.py:442-445 | apply type 'external', apply URL and the unconditional max-salary copy, written into the object |
| Scraping.SetApplyUrl | import.py:311-317 | apply type 'url', apply URL and the conditional max-salary copy, written into the object |
| Scraping.FillImportDescription | import.py:168-221 | import.py's collected, de-duplicated and capped description, computed by its loops and written into the object |
| Scraping.FillLocation | import.py:223-236 | import.py's location fallback, written into the object |
| Scraping.FillExperience | import.py:238-247 | import.py's labelled experience fallback, written into the object |
| Scraping.FillQualification | import.py:273-282 | import.py's labelled qualification fallback, written into the object |
| Scraping.FillImportCategory | import.py:249-271 | import.py's breadcrumb-then-title category chain, written into the object |
| Scraping.FillContractType | import.py:284-298 | import.py's contract-type chain, written into the object |
| Scraping.ScrapeDetailS3 | scraper3.py:142-447 | the whole scraper3.py detail pass over the mutable record returns exactly the pipeline `DetailS3` |
| Scraping.ScrapeDetailAll | all_scraper.py:46-272 | the whole all_scraper.py detail pass returns exactly the pipeline `DetailAll` |
| Scraping.ScrapeDetailImport | import.py:10-325 | the whole import.py detail pass returns exactly `DetailImport`, None included |
| Scraping.SharedTitleIsText | scraper3.py:184-261 | after the JSON-LD blocks and the `h1` fallback the title is a string or None; it is "no title" for the category step exactly when it is None |
| Scraping.SharedStagesFlags | all_scraper.py:58-223 | after the shared stages each flag is True exactly when its page indicator exists, the tag is 'Costa Rica', the category is None, and experience is None or a non-empty string, non-None exactly when the `dd` text is non-empty |
| Scraping.S3Assembly | scraper3.py:442-445 | a scraper3.py record has apply type 'external', apply URL = page URL, max salary = salary, tag 'Costa Rica', flags = page indicators, and experience None or non-empty |
| Scraping.AllAssembly | all_scraper.py:267-270 | the same assembly facts for all_scraper.py |
| Scraping.S3CategoryPolicy | scraper3.py:332-429 | the final category is None exactly when no pooled candidate survives cleaning and filtering; otherwise it is stripped, comma-free, at least 3 long, neither is nor contains a place name; a category found from the title is always the final one |
| Scraping.AllCategoryPolicy | all_scraper.py:225-254 | the category is None without candidates, else the ','-join of the list; list entries are non-empty, whitespace-collapsed, drawn from the candidates, pairwise distinct ignoring case, and every non-empty candidate is represented |
| Scraping.ImportDiscards | import.py:56-64 | the import.py record is None exactly when the JSON-LD stage raises a non-decoding error; a first script without text always discards it; a page without scripts never does |
| Scraping.ImportAssembly | import.py:311-317 | an import.py record has apply type 'url', apply URL = page URL, tag [], featured = premium badge, filled and urgent False, and max salary equal to salary |
| JsonLd.SelectPosting | scraper3.py:191-200 | the chosen posting is a JobPosting object: the block itself when it is one, otherwise the posting `@graph` yields |
| JsonLd.SelectionRule | all_scraper.py:95-104 | a selected posting is the top-level object, or the first JobPosting of `@graph`, every earlier graph item being a non-posting object |
| JsonLd.EmploymentCodes | scraper3.py:212-218 | FULL_TIME/PART_TIME/TEMPORARY/CONTRACT become 'Tiempo Completo'/'Tiempo parcial'/'Temporario'/'Contrato', any other hashable value passes through, an unhashable one raises with nothing written; only the job type changes |
| JsonLd.UnitCodes | scraper3.py:247-252 | MONTH/YEAR/HOUR become 'mensual'/'anual'/'hora' and anything else '' (each direction) |
| JsonLd.LocalityOverRegion | scraper3.py:224-237 | a non-empty locality is written to location, address and map location; else a non-empty region; else none of the three changes |
| JsonLd.StructuredDescriptionHasNoDotSpace | scraper3.py:203-207 | a description written from JSON-LD is a string that never contains '. ' |
| JsonLd.RaisedKeepsTitle | scraper3.py:202-255 | the title a posting supplies survives an exception raised later in the same block |
| JsonLd.RaisedKeepsSalary | scraper3.py:239-255 | an unhashable unit raises after the stripped salary text is written, and the salary stays |
| JsonLd.LastPostingTitleWins | scraper3.py:184-202 | when the last script yields a posting with a title, that title is the record's title: later blocks overwrite earlier ones |
| JsonLd.BlocksKeepOtherKeys | scraper3.py:184-255 | the JSON-LD loop never touches the flags, tag, apply keys, experience, category, max salary or image |
| JsonLd.PostingKeepsOtherKeys | scraper3.py:202-252 | one posting writes none of the keys outside the JSON-LD block |
| JsonLd.LdTitleIsText | scraper3.py:202 | the JSON-LD loop keeps the title a string or None |
| GraphLd.GraphTitle | import.py:69 | the title write changes only the title |
| GraphLd.GraphDescription | import.py:72-81 | the description write changes only the description |
| GraphLd.GraphEducation | import.py:98-100 | the credential write changes only the qualification |
| GraphLd.GraphExperience | import.py:103-111 | the months write changes only the experience |
| GraphLd.GraphCategory | import.py:113-122 | the occupational-category/industry write changes only the category |
| GraphLd.GraphLocation | import.py:124-137 | the locality/region write changes only location and address |
| GraphLd.GraphSalary | import.py:139-152 | the salary write changes only salary, max salary and salary type |
| GraphLd.ApplyGraphPosting | import.py:68-152 | a successfully applied item leaves the title its title step wrote |
| GraphLd.PostingWrites | import.py:68-152 | an applied item leaves its stripped title, its cleaned description when truthy, `validThrough` in both date keys, the English employment label, and for qualification, experience, category, location/address and the salary keys what that step alone writes on the original record; the 13 keys it never writes are unchanged |
| GraphLd.TypeLabels | import.py:86-96 | FULL_TIME, PART_TIME, TEMPORARY and CONTRACT get their English labels; any other value passes through |
| GraphLd.NoSalaryObject | import.py:139-152 | without a `baseSalary` object holding a `value` object the record is unchanged |
| GraphLd.MonthsFormatting | import.py:103-111 | 12 months gives "1 year", more than 12 gives "<m/12> years" (18 gives "1 years"), fewer gives "<raw> months" |
| GraphLd.NoMonthsKeepsExperience | import.py:105-106 | a missing or zero month count leaves experience unset |
| GraphLd.IntegerMonths | import.py:103-111 | an integer month count m ≠ 0 sets experience to the formatted years or months text |
| GraphLd.TopLevelPostingIgnored | import.py:66-68 | a top-level JobPosting without `@graph` changes nothing |
| GraphLd.MissingScriptTextDiscards | import.py:59-64 | a first script without text discards the record (the TypeError is not a decoding error) |
| GraphLd.LaterItemsOverwrite | import.py:66-68 | appending a JobPosting item applies it after all earlier items |
| GraphLd.LastItemTitleWins | import.py:66-69 | the last JobPosting item's title is the record's title |
| GraphLd.RawSalary | import.py:139-152 | the raw salary value is stored in salary and max salary alike; MONTH, YEAR and HOUR set the type to Monthly, Yearly and Hourly; an unknown unit leaves the salary type as it was |
| GraphLd.GraphSalaryKeeps | import.py:139-152 | the salary write touches none of the flags, tag, apply keys or image, and keeps max salary equal to salary |
| GraphLd.ImportLdKeeps | import.py:56-155 | the whole import.py JSON-LD stage touches none of the flags, tag, apply keys or image, and keeps max salary equal to salary |
| Fallbacks.Badges | scraper3.py:263-273 | each flag becomes True when its indicator exists and is otherwise kept; nothing else changes |
| Fallbacks.DescriptionCandidates | scraper3.py:280-313 | the container texts, then the sibling wrapper; the paragraphs only when neither exists |
| Fallbacks.LongestIsFirstMaximal | scraper3.py:316-322 | no choice exactly when every candidate is empty; otherwise the first candidate of maximal length |
| Fallbacks.ChooseLongest | scraper3.py:316-322 | the best-text loop computes `Longest` |
| Fallbacks.DescriptionFallbackChoice | scraper3.py:275-327 | only the description changes; a truthy one stays; a new one is the chosen text with newlines canonicalised and contains no '\r' |
| Fallbacks.LongestTieGoesFirst | scraper3.py:318-322 | of two non-empty candidates of equal length the first wins |
| Fallbacks.ExperienceFromDd | all_scraper.py:23-42 | only experience changes; it ends None or a non-empty string, non-None exactly when the `dd` text is non-empty |
| Fallbacks.ImageUrl | scraper3.py:432-440 | an image exists exactly for 'http' and '/' sources; it starts with 'http' and ends with the source; an 'http' source is kept as is |
| Fallbacks.ImagePrefixes | all_scraper.py:257-265 | '//' gets 'https:', '/' gets the site URL, anything else leaves no image |
| Fallbacks.ApplyUrlMaxSalary | import.py:311-317 | apply type 'url' and apply URL are set; max salary changes exactly when salary is truthy, max salary falsy and the two differ; a truthy salary leaves max salary truthy; nothing else changes |
| Categories.TitleCategoryRule | scraper3.py:13-46 | None for a missing or empty title; None exactly when no keyword of any entry occurs in the lower-cased title; otherwise the label of the first entry with a matching keyword |
| Categories.AuditorIsAccounting | scraper3.py:13-46 | "Auditor" gives "Contabilidad", the earlier entry |
| Categories.ExtractTagCategories | scraper3.py:49-84 | the tag loop computes `TagCategories` |
| Categories.TagCategoriesShape | scraper3.py:66-82 | every entry comes from a link text whose lower case holds 'trabajo de/en' or 'empleo de/en', is the stripped first comma piece of that text with the prefixes removed, is stripped and has no comma |
| Categories.ExtractBreadcrumbCategories | scraper3.py:87-112 | the breadcrumb loop computes `CrumbCategories` |
| Categories.CrumbCategoriesMembers | scraper3.py:101-110 | a text is returned exactly when some link with that text is neither home nor a place and has a category-like href |
| Categories.BuildPool | scraper3.py:333-385 | the pool is the title category, the non-place tags, the breadcrumbs and the JSON-LD candidates, in that order |
| Categories.KeepNonPlaceTags | scraper3.py:357-359 | the tag loop keeps the tags that are not place names |
| Categories.CollectLdCandidates | scraper3.py:368-385 | the JSON-LD loop collects each top-level object's truthy occupational category and industry |
| Categories.PickCategory | scraper3.py:400-421 | the pick loop returns the first cleaned candidate that is acceptable |
| Categories.FirstAcceptableMeaning | scraper3.py:400-421 | nothing is picked exactly when no candidate is acceptable; otherwise the first acceptable one |
| Categories.CleanCandidateShape | scraper3.py:401-405 | a cleaned candidate is stripped and comma-free |
| Categories.FinalCategoryShape | scraper3.py:400-428 | the pick is None exactly when no pooled candidate is acceptable; otherwise it is stripped, comma-free, at least 3 long, avoids every place name, and no earlier candidate was acceptable |
| LabelFacts.TitleLabelsKept | scraper3.py:26-44 | each of the 16 title labels is its own cleaned form and passes the place-name and length filters |
| LabelFacts.TitleCategoryIsFinal | scraper3.py:345-348 | whatever else is pooled, a category found from the title is the one picked |
| CategoryList.NonEmpty | all_scraper.py:228-232 | exactly the non-empty texts are kept |
| CategoryList.StrippedPiecesMembers | all_scraper.py:236-239 | a piece is kept exactly when its stripped form is non-empty, and kept pieces are stripped |
| CategoryList.KeywordPiecesShape | all_scraper.py:234-239 | every keyword piece is non-empty, stripped and free of ',', '\|' and ';' |
| CategoryList.AppendNonEmpty | all_scraper.py:228-232 | the selector loop appends the non-empty texts |
| CategoryList.AppendKeywords | all_scraper.py:234-239 | the meta-keyword loop appends the keyword pieces |
| CategoryList.SeenCaseless | all_scraper.py:250 | the membership test ignores case |
| CategoryList.DedupLoop | all_scraper.py:247-251 | the de-duplication loop computes `Dedup` |
| CategoryList.DedupProperties | all_scraper.py:247-251 | entries are non-empty, whitespace-collapsed forms of candidates; no two are equal ignoring case; every non-empty candidate is represented; the first occurrence's spelling and order are kept |
| CategoryList.CollectCategories | all_scraper.py:226-251 | the three collection loops and the de-duplication give the de-duplicated candidates |
| CategoryList.CategoryField | all_scraper.py:253-254 | only the category can change; an empty list leaves every key unchanged; otherwise, when no entry holds a comma, splitting the category at commas gives the list back |
| Lines.NormalizeNewlines | scraper3.py:326 | the canonicalised text has no '\r' |
| Lines.NormalizeWithoutCr | import.py:76 | a text without '\r' is unchanged |
| Lines.NormalizeIdempotent | import.py:76 | canonicalising twice is canonicalising once |
| Lines.CrLfWellFormed | all_scraper.py:381-382 | after the CSV conversion every '\r' is followed by '\n' and every '\n' preceded by '\r' |
| Lines.CrLfReadsBack | all_scraper.py:381-382 | canonicalising the converted text gives the canonical form of the original |
| Lines.CrLfIdempotent | all_scraper.py:381-382 | converting twice is converting once |
| Lines.CleanLinesParts | import.py:76-81 | the lines of the result are the stripped lines of the canonicalised input |
| Lines.CleanLinesShape | import.py:76-81 | the result has no '\r' and as many lines as the canonicalised input |
| Lines.CleanLinesIdempotent | import.py:76-81 | cleaning twice is cleaning once |
| Lines.BreakSentencesNoDotSpace | scraper3.py:206-207 | after replacing '. ' by '.\r\n' and stripping, no '. ' remains |
| ImportFallbacks.AppendLongLines | import.py:190-194 | the line loop appends the stripped lines longer than 3 |
| ImportFallbacks.CollectDetailParts | import.py:181-194 | the element loop computes `DetailParts` |
| ImportFallbacks.DetailPartsShape | import.py:181-194 | every collected line is stripped, longer than 3 and has no '\n' |
| ImportFallbacks.CollectKeywordBlocks | import.py:202-209 | the block loop computes `KeywordBlocks` |
| ImportFallbacks.KeywordBlocksMembers | import.py:202-209 | exactly the texts of 16–499 characters naming a job-detail keyword and no schema markers are kept, at most as many as there were |
| ImportFallbacks.UniqueParts | import.py:213-218 | the seen-set loop computes `Unique` |
| ImportFallbacks.UniqueMembers | import.py:213-218 | a part is kept exactly when it occurs and is longer than 3 |
| ImportFallbacks.UniqueIsSightings | import.py:213-218 | the kept parts are the first sightings, in order |
| ImportFallbacks.UniqueDistinct | import.py:213-218 | no part is kept twice |
| ImportFallbacks.Capped | import.py:221 | at most 25 parts, the first ones |
| ImportFallbacks.ImportDescriptionShape | import.py:168-221 | only the description changes and a truthy one stays; a new one is the '\n'-join of 1 to 25 distinct first-seen parts longer than 3 |
| ImportFallbacks.DescriptionPartsLong | import.py:170-209 | every collected part is longer than 3 |
| ImportFallbacks.DetailLinesRoundTrip | import.py:211-221 | splitting the stored description at '\n' gives back the kept lines, at most 25 |
| ImportFallbacks.ImportLocationShape | import.py:224-236 | only location and address change; both are the same stripped, comma-free text, the whole unlabelled text when it has no comma; a truthy location or a missing label leaves the record unchanged |
| ImportFallbacks.RemoveLabel | import.py:245 | removing the label never lengthens the text |
| ImportFallbacks.RemoveLabelAbsent | import.py:245 | a text without the label, in any case, is unchanged |
| ImportFallbacks.LabelThenValue | import.py:245 | label, spaces, then a label-free value gives the value |
| ImportFallbacks.LabelledValue | import.py:239-247 | a truthy value or a missing label stays; otherwise the unlabelled text is taken exactly when it is non-empty and shorter than 50 characters |
| ImportFallbacks.CrumbCategory | import.py:252-259 | a breadcrumb category exists exactly when there are more than 2 items and the second-to-last is non-empty and not Home/Búsqueda/Search; it is that item |
| ImportFallbacks.ImportCategoryChain | import.py:250-271 | only the category changes and a truthy one stays; a usable breadcrumb wins; else the first keyword group in the lower-cased title decides, and with none the record is unchanged |
| ImportFallbacks.ContractTypeChain | import.py:285-298 | only the job type changes and a truthy one stays; the first phrase group found in the text decides, and with none the record is unchanged |
| Listing.PageUrlForms | import.py:342-350 | import.py's if/else URL equals the one-line form of the other two |
| Listing.PageUrlReadsBack | all_scraper.py:292 | page 1 is the listing URL; page n > 1 is the URL, '&' or '?' depending on '?', 'page=' and the decimal n, which parses back to n |
| Listing.PageUrlsDiffer | all_scraper.py:292 | different pages have different URLs |
| Listing.PageLinks | all_scraper.py:298-310 | the link loops compute the de-duplicated anchor then container URLs |
| Listing.DedupProperties | all_scraper.py:298-310 | the same URLs, each once, first occurrences in order; distinct input is unchanged |
| Listing.VisitPage | all_scraper.py:317-332 | the job loop computes `VisitLinks`: cap check, `seen` skip and remember, scrape, keep non-None records |
| Listing.ScrapeListings | all_scraper.py:287-347 | the page loop computes the records of `CrawlFrom` page 1 |
| Listing.VisitCap | all_scraper.py:317-320 | with a positive cap, one page never takes the records past it |
| Listing.CrawlCap | all_scraper.py:290-347 | with a positive cap, the crawl never collects more records than it |
| Listing.CrawlConsistent | all_scraper.py:322-329 | the records are the non-None results of the URLs visited, and with a `seen` set no URL is visited twice |
| Listing.CrawlFromStart | all_scraper.py:287-347 | from the start: records = results of visited URLs, no repeats where `seen` exists, at most a positive cap, none under a negative cap |
| Listing.NegativeCap | all_scraper.py:317-320 | a negative cap is truthy and already reached: the crawl returns no records |
| Listing.ImportRescrapes | import.py:381-391 | without a `seen` set import.py scrapes a URL again on a later page, where all_scraper.py does not |
| Listing.TwoPages | all_scraper.py:317-329 | two pages that each link one URL: it is visited once where the variant keeps `seen`, twice otherwise |
| CsvCells.CsvRow | all_scraper.py:370-385 | one cell per header key, each encoded by `Cell`, the description as description |
| CsvCells.ImportCsvRow | import.py:437-449 | one cell per header key, each encoded by `ImportCell` |
| CsvCells.ListCellReadsBack | all_scraper.py:374-375 | a non-empty list of comma-free strings is split back from its cell |
| CsvCells.DescriptionCell | all_scraper.py:381-382 | a description cell has only '\r\n' breaks, reads back to the canonical text, and re-encoding it changes nothing |
| CsvCells.FlagAndEmptyCells | all_scraper.py:374-379 | True/False become 1/0 (import.py: 'True'/'False'); None and the empty list become '' |

## Left out

- HTTP requests, timeouts, `time.sleep`, printing, tracebacks and the
  `__main__` drivers with their location loop: they are I/O and pacing. The
  detail and listing fetches are function parameters of the listing model.
- Exceptions from the network or the parser, which make a detail pass return
  None or end the listing loop: the model's pages are already fetched. The
  listing model does end the loop when a fetch gives nothing.
- BeautifulSoup parsing, CSS selectors and `find`/`find_parent`/
  `find_next_sibling`: their results are the fields of `Page.DetailPage` and
  `Page.ListingPage`. This includes `wrapper.append(node)`, which moves nodes
  out of the live tree and changes what later lookups see.
- `json.loads` and the whitespace collapse before it: a script's parsed value
  is given. Duplicate keys keep the last value, as `json.loads` does.
- The `csv` module's quoting, the byte-order mark, file writing and
  `json.dump`: only the per-cell value is modelled.
- Floating point. The months→years rule is stated over integers; a float
  month count is not modelled. Salaries are integers or strings, so
  `str(float)` is not modelled.
- Unicode case mapping: `Text.Lower` maps ASCII and Latin-1 letters only,
  which covers every keyword and place name in the source. `.title()` is
  replaced by the 16 literal labels. The badge regexes, including `\b`, are
  page indicators.
- The JSON-LD `@type` test compares with the string 'JobPosting' only; a
  list-valued `@type` is never equal to it, as in the source.
- Categories.TagCategoriesShape: states where each entry comes from, not that
  every qualifying link yields one; `TagCategories` itself gives the exact
  list.
- Fallbacks.DescriptionFallbackChoice: states what a changed description is,
  not that a falsy description with a non-empty candidate always changes;
  `DescriptionFallback` gives the exact value.
- ImportFallbacks.RemoveLabel: the case-insensitive `re.sub` is described by
  the function's recursion; its contract only bounds the length, and
  `RemoveLabelAbsent` and `LabelThenValue` state its effect on typical
  inputs.
- GraphLd.GraphTitle, GraphLd.GraphDescription, GraphLd.GraphEducation,
  GraphLd.GraphExperience, GraphLd.GraphCategory and GraphLd.GraphLocation:
  their contracts state only which key each writes. The value written is
  given by the function, for experience by `IntegerMonths`, and for the
  whole item by `PostingWrites`.
- JsonValues.PyRepr: Python's `repr` quotes a string with `"` when it holds
  a `'` and no `"`, escapes backslashes, the quote and control characters,
  and a parsed dict holds each key once (the last value, at the first key's
  position). The model always quotes with `'`, escapes nothing and prints the
  members as stored. This text reaches `str()` of non-string candidates and
  CSV cells only.
