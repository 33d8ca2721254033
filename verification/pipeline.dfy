/**
 * `main`: scrape the page, and write the feed only when at least one job
 * was found.
 */
module Pipeline {
  import opened Wrappers
  import opened Text
  import opened Page
  import opened Extractor
  import opened Feed

  /** What one run leaves behind: a feed document to write, or nothing written. */
  datatype Outcome = Published(rss: Rss) | NothingWritten

  /** One run on a parsed page; `buildDate` is the time stamp the run would read from the clock. */
  method Run(page: seq<Element>, buildDate: string) returns (outcome: Outcome)
    ensures outcome.Published? <==> Jobs(page) != []
    ensures outcome.Published? ==> outcome.rss == FeedOf(Jobs(page), buildDate)
  {
    var jobs := ScrapeJobs(page);
    if jobs != [] {
      var rss := GenerateFeed(jobs, buildDate);
      outcome := Published(rss);
    } else {
      outcome := NothingWritten;
    }
  }

  /**
   * A feed that is written holds between one and fifty items, one per job in
   * order; every item's link starts with "http" and is also its guid, and every
   * title passed the length and keyword checks.
   */
  lemma PublishedFeedIsWellFormed(page: seq<Element>, buildDate: string)
    requires Jobs(page) != []
    ensures var jobs := Jobs(page);
      var items := FeedOf(jobs, buildDate).channel.items;
      && 1 <= |items| <= MaxCandidates
      && forall i :: 0 <= i < |items| ==>
           && LinkKey in jobs[i]
           && items[i].link == jobs[i][LinkKey]
           && items[i].guid == Guid("true", items[i].link)
           && StartsWith(items[i].link, "http")
           && AcceptableTitle(items[i].title)
  {
    var jobs := Jobs(page);
    forall i | 0 <= i < |jobs|
      ensures LinkKey in jobs[i] && StartsWith(FeedOf(jobs, buildDate).channel.items[i].link, "http")
      ensures AcceptableTitle(FeedOf(jobs, buildDate).channel.items[i].title)
    {
      ScrapedJobMakesFaithfulItem(jobs, buildDate, i);
    }
  }

  /**
   * Every item of a feed traces back to one of the page's candidates: its
   * link, title and description are that candidate's resolved link, chosen
   * title and composed description.
   */
  lemma PublishedItemFromCandidate(page: seq<Element>, buildDate: string, i: nat)
    requires i < |Jobs(page)|
    ensures var item := FeedOf(Jobs(page), buildDate).channel.items[i];
      exists c :: c in Candidates(page) && LinkOf(c).Some?
        && item.link == LinkOf(c).value
        && item.title == TitleOf(c)
        && item.description == Describe(TitleOf(c), LocationOf(c), DepartmentOf(c))
  {
    var jobs := Jobs(page);
    var batch := Limit(Candidates(page));
    CollectedJobsAccepted(batch);
    assert jobs[i] in Collect(batch);
    var c :| c in batch && Extract(c) == Some(jobs[i]);
    assert c in Candidates(page);
    ScrapedJobMakesFaithfulItem(jobs, buildDate, i);
  }

  /** A page on which none of the three strategies finds anything leads to no feed being written. */
  lemma NoCandidatesNoFeed(page: seq<Element>)
    requires forall s :: Tier(s, page) == []
    ensures Jobs(page) == []
  {
  }
}
