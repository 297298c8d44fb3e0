/** What the scrapers read from a job board's search page; the HTTP request and the
    HTML parsing themselves are not modelled, only their outcome. */
module JobBoard {
  import opened Basics

  /** The three texts read from one result block. */
  datatype Job = Job(title: string, company: string, location: string)

  /** One result block of a page: its `data-jk` attribute (None when absent) and its
      three texts (None when one of the three elements is missing, in which case
      reading its text raises). */
  datatype Listing = Listing(jobKey: Option<string>, job: Option<Job>)

  /** The outcome of one search request: the page's result blocks in page order, or
      an exception from the request itself. */
  datatype Fetch = Page(listings: seq<Listing>) | RequestFailed
}
