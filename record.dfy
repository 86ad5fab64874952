/**
 * The record every scraper variant fills for one job page: 26 `_job_*`
 * keys, each holding a JSON-compatible Python value (None is `JNull`).
 */
module Schema {

  import opened JsonValues

  /** The 26 keys, in the order the CSV header lists them. */
  datatype Record = Record(
    title: Json,
    description: Json,
    category: Json,
    jobType: Json,
    location: Json,
    address: Json,
    salary: Json,
    salaryType: Json,
    maxSalary: Json,
    experience: Json,
    qualification: Json,
    careerLevel: Json,
    expiryDate: Json,
    applicationDeadlineDate: Json,
    applyType: Json,
    applyUrl: Json,
    applyEmail: Json,
    featured: Json,
    filled: Json,
    urgent: Json,
    featuredImage: Json,
    videoUrl: Json,
    tag: Json,
    photos: Json,
    gender: Json,
    mapLocation: Json)

  /** Host prepended to site-relative image paths. */
  const BaseUrl: string := "https://trabajosdiarios.co.cr"

  /** The `_job_tag` start value of scraper3.py and all_scraper.py. */
  const CostaRicaTag: Json := JStr("Costa Rica")

  /** The `_job_tag` start value of import.py. */
  const EmptyTag: Json := JArr([])

  /**
   * The record before anything is extracted: every key None, except the
   * three badge flags (False), the photo list (empty) and the tag.
   */
  function Initial(tag: Json): Record {
    Record(
      JNull, JNull, JNull, JNull, JNull,
      JNull, JNull, JNull, JNull,
      JNull, JNull, JNull,
      JNull, JNull,
      JNull, JNull, JNull,
      JBool(false), JBool(false), JBool(false), JNull, JNull,
      tag, JArr([]), JNull, JNull)
  }

  /** The values of a record in CSV column order. */
  function Fields(r: Record): (fs: seq<Json>)
    ensures |fs| == 26
    ensures fs[1] == r.description
  {
    [r.title, r.description, r.category, r.jobType, r.location,
     r.address, r.salary, r.salaryType, r.maxSalary,
     r.experience, r.qualification, r.careerLevel,
     r.expiryDate, r.applicationDeadlineDate,
     r.applyType, r.applyUrl, r.applyEmail,
     r.featured, r.filled, r.urgent, r.featuredImage, r.videoUrl,
     r.tag, r.photos, r.gender, r.mapLocation]
  }

  /** Index of the `_job_description` column. */
  const DescriptionColumn: nat := 1
}
