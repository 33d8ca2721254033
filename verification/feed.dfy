/**
 * `generate_rss_feed` up to serialisation: the RSS 2.0 element tree it
 * builds, with fixed channel metadata and one item per job record.
 */
module Feed {
  import opened Text
  import opened Extractor

  const RssVersion := "2.0"
  const FeedTitle := "World Bank Group Jobs"
  const SiteLink := "https://worldbankgroup.csod.com/ux/ats/careersite/1/home?c=worldbankgroup"
  const FeedDescription := "Job listings from World Bank Group"
  const FeedLanguage := "en-us"
  const SelfLink := "https://cinfoposte.github.io/worldbank-jobs/worldbank_jobs.xml"
  const UntitledPosition := "Untitled Position"

  /** `<atom:link href=… rel="self" type="application/rss+xml"/>`. */
  datatype AtomLink = AtomLink(href: string, rel: string, mediaType: string)

  /** `<guid isPermaLink=…>text</guid>`. */
  datatype Guid = Guid(isPermaLink: string, text: string)

  datatype Item = Item(title: string, link: string, description: string, guid: Guid)

  /** The `<channel>` element: metadata, then the items in the order they were added. */
  datatype Channel = Channel(
    title: string,
    link: string,
    description: string,
    language: string,
    atomLink: AtomLink,
    lastBuildDate: string,
    items: seq<Item>)

  /** The `<rss version=…>` root. */
  datatype Rss = Rss(version: string, channel: Channel)

  /** Python's `dict.get(key, default)`. */
  function Get(job: JobData, key: string, default: string): string {
    if key in job then job[key] else default
  }

  /** The `<item>` built for one job. */
  function ItemOf(job: JobData): (item: Item)
    ensures item.guid.text == item.link && item.guid.isPermaLink == "true"
    ensures item.title == if TitleKey in job then job[TitleKey] else UntitledPosition
    ensures item.link == if LinkKey in job then job[LinkKey] else ""
    ensures item.description == if DescriptionKey in job then job[DescriptionKey] else ""
  {
    var link := Get(job, LinkKey, "");
    Item(Get(job, TitleKey, UntitledPosition), link, Get(job, DescriptionKey, ""), Guid("true", link))
  }

  /** The whole feed document for a list of jobs; `buildDate` is the formatted current UTC time. */
  function FeedOf(jobs: seq<JobData>, buildDate: string): (rss: Rss)
    ensures rss.version == RssVersion
    ensures rss.channel.title == FeedTitle && rss.channel.lastBuildDate == buildDate
    ensures |rss.channel.items| == |jobs|
    ensures forall i :: 0 <= i < |jobs| ==> rss.channel.items[i] == ItemOf(jobs[i])
  {
    var items := seq(|jobs|, i requires 0 <= i < |jobs| => ItemOf(jobs[i]));
    Rss(RssVersion, Channel(FeedTitle, SiteLink, FeedDescription, FeedLanguage,
                            AtomLink(SelfLink, "self", "application/rss+xml"), buildDate, items))
  }

  /** worldbank_scraper.py:182-226 — the channel metadata, then one `SubElement` item per job, filled child by child. */
  method GenerateFeed(jobs: seq<JobData>, buildDate: string) returns (rss: Rss)
    ensures rss == FeedOf(jobs, buildDate)
  {
    var channel := Channel(FeedTitle, SiteLink, FeedDescription, FeedLanguage,
                           AtomLink(SelfLink, "self", "application/rss+xml"), buildDate, []);
    for i := 0 to |jobs|
      invariant |channel.items| == i
      invariant forall k :: 0 <= k < i ==> channel.items[k] == ItemOf(jobs[k])
      invariant channel.(items := []) == FeedOf(jobs, buildDate).channel.(items := [])
    {
      var job := jobs[i];
      var title := Get(job, TitleKey, UntitledPosition);
      var link := Get(job, LinkKey, "");
      var description := Get(job, DescriptionKey, "");
      var guid := Guid("true", Get(job, LinkKey, ""));
      channel := channel.(items := channel.items + [Item(title, link, description, guid)]);
    }
    rss := Rss(RssVersion, channel);
  }

  /**
   * For a record the scraper produced, the item shows the job's own title,
   * link and description, and its guid is that link, marked as a permalink.
   * The "Untitled Position" default is never used for it.
   */
  lemma ScrapedJobMakesFaithfulItem(jobs: seq<JobData>, buildDate: string, i: nat)
    requires i < |jobs| && IsAcceptedJob(jobs[i])
    ensures var item := FeedOf(jobs, buildDate).channel.items[i];
      && item.title == jobs[i][TitleKey]
      && item.link == jobs[i][LinkKey]
      && item.description == jobs[i][DescriptionKey]
      && item.guid == Guid("true", item.link)
      && StartsWith(item.link, "http")
      && |item.title| >= MinTitleLength
      && StartsWith(item.description, item.title)
  {
  }
}
