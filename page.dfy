/**
 * What the scrapers read from one parsed HTML page. HTML parsing, CSS
 * selectors, tree navigation and `json.loads` are not modelled: their
 * results are the fields below.
 */
module Page {

  import opened Common
  import opened JsonValues

  /**
   * One `<script type="application/ld+json">` tag: its `.string` (None when
   * the tag has no single text child) and the result of `json.loads` on the
   * whitespace-collapsed text (None when that raises a decoding error).
   */
  datatype LdScript = LdScript(text: Option<string>, parsed: Option<Json>)

  /** An anchor: its stripped text and its `href` ('' when absent). */
  datatype Link = Link(text: string, href: string)

  /** One job-detail page, as seen by the three variants. */
  datatype DetailPage = DetailPage(
    /** Every ld+json script, in document order. */
    scripts: seq<LdScript>,
    /** Stripped text of the first `h1`, when there is one. */
    h1: Option<string>,
    /** A premium span or a "Premium" text exists. */
    premiumBadge: bool,
    /** A text matches `\b(llenad[oa]|filled)\b` (any case). */
    filledText: bool,
    /** A text matches `\b(urgente|urgent)\b` (any case). */
    urgentText: bool,
    /** Texts (`get_text('\n', strip=True)`) of the description containers the seven selectors find, in selector order. */
    containerTexts: seq<string>,
    /** Text of the wrapper around the siblings after a "Job details"-like heading, when some were collected. */
    siblingsText: Option<string>,
    /** Text of the wrapper around all `p` elements, when the page has any. */
    paragraphsText: Option<string>,
    /** Stripped text of the `dd` after the `dt` holding "Experiencia requerida", when that chain exists. */
    experienceDd: Option<string>,
    /** scraper3.py: texts of the links the six tag selectors find, selector by selector. */
    tagLinks: seq<string>,
    /** scraper3.py: links the six breadcrumb selectors find, selector by selector. */
    breadcrumbLinks: seq<Link>,
    /** all_scraper.py: texts of the links the four breadcrumb selectors find. */
    crumbTexts: seq<string>,
    /** all_scraper.py: `content` of the keywords meta tag, when present and non-empty. */
    metaKeywords: Option<string>,
    /** all_scraper.py: texts of the links the seven tag/category selectors find. */
    tagTexts: seq<string>,
    /** `src` of the first image whose source names a jpg/png/jpeg/webp file. */
    imageSrc: Option<string>,
    /** import.py: texts of the `p`/`div`/`span` elements under the parent of the "Detalle del empleo" heading, when both exist. */
    detailTexts: Option<seq<string>>,
    /** import.py: stripped texts of every `p`/`li`/`div` element. */
    blockTexts: seq<string>,
    /** import.py: stripped text of the parent of the "Ubicación:" text, when both exist. */
    locationText: Option<string>,
    /** import.py: stripped text of the parent of the "Experiencia requerida:" text. */
    experienceText: Option<string>,
    /** import.py: stripped text of the parent of the "Educación requerida:" text. */
    qualificationText: Option<string>,
    /** import.py: stripped text of the parent of the first contract-type text. */
    typeText: Option<string>,
    /** import.py: stripped texts of the `li` items of the first breadcrumb `ol`, when there is one. */
    crumbItems: Option<seq<string>>)

  /**
   * One listing page: the absolute URLs (after `urljoin` with the site) of
   * the anchors whose href holds `/trabajo/<digits>/`, then of the first
   * `/trabajo/` link in each job container, in document order; whether an
   * anchor reads "Siguiente" or "Next"; whether a `li.next a` or
   * `a[rel="next"]` element exists.
   */
  datatype ListingPage = ListingPage(anchorUrls: seq<string>, containerUrls: seq<string>, nextText: bool, nextRel: bool)
}
