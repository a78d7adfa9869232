/** Sites and the analyzer switches in their settings. */
module Sites {
  import opened Basics

  datatype Analyzer = Analyzer(headlessDetection: bool, rateLimiting: bool)

  datatype Status = Verifying | Active | Suspended

  datatype Site = Site(status: Status, analyzer: Option<Analyzer>)

  type SiteRows = map<string, Site>

  const DEFAULT_ANALYZER := Analyzer(true, true)

  /** `GetSiteSettings`: a missing site or missing settings mean the defaults. */
  function SettingsOf(sites: SiteRows, siteId: string): Analyzer {
    if siteId in sites && sites[siteId].analyzer.Some? then sites[siteId].analyzer.value else DEFAULT_ANALYZER
  }
}
