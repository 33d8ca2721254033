/**
 * The job extraction of `scrape_worldbank_jobs`: three candidate strategies
 * tried in order, the per-candidate link, title, location, department and
 * description rules, and the loop that turns at most fifty candidates into job
 * records. A job record is the source's `job_data` dictionary, a map from
 * field name to text.
 */
module Extractor {
  import opened Wrappers
  import opened Text
  import opened Seqs
  import opened Page

  const Domain := "https://worldbankgroup.csod.com"
  const CareerSite := Domain + "/ux/ats/careersite/1/"
  const DefaultLocation := "World Bank Group"
  const MaxCandidates := 50
  const MinTitleLength := 5
  const MaxFallbackTitle := 100

  const CardKeywords: seq<string> := ["job-card", "job-item", "position", "vacancy", "requisition"]
  const SkipKeywords: seq<string> := ["search", "filter", "sort", "login", "sign in", "home", "about", "contact"]

  // The queries the scraper hands to find_all and find.
  const JobCardQuery := Query(["div", "article", "li"], ClassContains(CardKeywords), AnyHref)
  const RequisitionQuery := Query(["a"], AnyClass, HrefContains("requisition"))
  const ContainerQuery := Query(["div", "article"], AnyClass, AnyHref)
  const HeadingOrAnchorQuery := Query(["h2", "h3", "h4", "a"], AnyClass, AnyHref)
  const LinkAnchorQuery := Query(["a"], AnyClass, HasHref)
  const TitledQuery := Query(["h2", "h3", "h4", "a"], ClassContains(["title"]), AnyHref)
  const HeadingQuery := Query(["h2", "h3", "h4"], AnyClass, AnyHref)
  const AnchorQuery := Query(["a"], AnyClass, AnyHref)
  const LocationQuery := Query(["span", "div", "p"], ClassContains(["location"]), AnyHref)
  const DepartmentQuery := Query(["span", "div", "p"], ClassContains(["department"]), AnyHref)

  type JobData = map<string, string>

  const LinkKey := "link"
  const TitleKey := "title"
  const LocationKey := "location"
  const DepartmentKey := "department"
  const DescriptionKey := "description"

  // ---------------------------------------------------------------------------
  // Candidate selection
  // ---------------------------------------------------------------------------

  /** Strategy 2 keeps a requisition link only when its text is longer than five characters. */
  predicate HasLongText(e: Element) {
    |e.text| > 5
  }

  /** Strategy 3 keeps a container holding a heading or anchor and an anchor with an `href`. */
  predicate IsStructured(e: Element) {
    Find(e, HeadingOrAnchorQuery).Some? && Find(e, LinkAnchorQuery).Some?
  }

  datatype Strategy = ClassKeyword | RequisitionLink | Structural

  function Rank(s: Strategy): nat {
    match s
    case ClassKeyword => 0
    case RequisitionLink => 1
    case Structural => 2
  }

  /** What one strategy accepts of a single element. */
  predicate Selects(s: Strategy, e: Element) {
    match s
    case ClassKeyword => Matches(JobCardQuery, e)
    case RequisitionLink => Matches(RequisitionQuery, e) && HasLongText(e)
    case Structural => Matches(ContainerQuery, e) && IsStructured(e)
  }

  /** The elements one strategy finds on the page: exactly those it accepts, in document order. */
  function Tier(s: Strategy, page: seq<Element>): (r: seq<Element>)
    ensures forall x :: x in r <==> x in Flatten(page) && Selects(s, x)
    ensures IsSubsequence(r, Flatten(page))
  {
    match s
    case ClassKeyword => FindAll(page, JobCardQuery)
    case RequisitionLink =>
      var r := Filter(FindAll(page, RequisitionQuery), HasLongText);
      SubsequenceTransitive(r, FindAll(page, RequisitionQuery), Flatten(page));
      r
    case Structural =>
      var r := Filter(FindAll(page, ContainerQuery), IsStructured);
      SubsequenceTransitive(r, FindAll(page, ContainerQuery), Flatten(page));
      r
  }

  /** The strategy whose result the scraper keeps: the first one that finds anything. */
  function Chosen(page: seq<Element>): (s: Strategy)
    ensures forall t :: Rank(t) < Rank(s) ==> Tier(t, page) == []
    ensures Tier(s, page) == [] ==> s == Structural
  {
    if Tier(ClassKeyword, page) != [] then ClassKeyword
    else if Tier(RequisitionLink, page) != [] then RequisitionLink
    else Structural
  }

  /** `job_elements` after the three strategies. */
  function Candidates(page: seq<Element>): (r: seq<Element>)
    ensures r == Tier(Chosen(page), page)
    ensures forall c :: c in r ==> Selects(Chosen(page), c)
    ensures IsSubsequence(r, Flatten(page))
    ensures r == [] <==> forall t :: Tier(t, page) == []
  {
    var byClass := Tier(ClassKeyword, page);
    if byClass != [] then byClass
    else
      var byHref := Tier(RequisitionLink, page);
      if byHref != [] then byHref
      else Tier(Structural, page)
  }

  /** `job_elements[:50]`. */
  function Limit(cands: seq<Element>): (r: seq<Element>)
    ensures |r| <= MaxCandidates
    ensures |r| == Min(|cands|, MaxCandidates) && r == cands[..|r|]
  {
    if |cands| <= MaxCandidates then cands else cands[..MaxCandidates]
  }

  // ---------------------------------------------------------------------------
  // Per-candidate rules
  // ---------------------------------------------------------------------------

  /** Turns an `href` into a link starting with "http": kept as it is, or put after the domain or the careersite path. */
  function ResolveHref(href: string): (link: string)
    ensures StartsWith(link, "http")
    ensures |href| <= |link| && link[|link| - |href|..] == href
    ensures StartsWith(href, "http") ==> link == href
  {
    if StartsWith(href, "http") then href
    else if StartsWith(href, "/") then
      HttpPrefixKept(Domain, href);
      Domain + href
    else
      assert CareerSite[..4] == Domain[..4];
      HttpPrefixKept(CareerSite, href);
      CareerSite + href
  }

  lemma HttpPrefixKept(base: string, href: string)
    requires |base| >= 4 && base[0] == 'h' && base[1] == 't' && base[2] == 't' && base[3] == 'p'
    ensures StartsWith(base + href, "http")
  {
    assert (base + href)[..4] == base[..4] == "http";
  }

  /** The three cases of resolution, as a reference definition of the result. */
  lemma ResolveCases(href: string)
    ensures !StartsWith(href, "http") && StartsWith(href, "/") ==> ResolveHref(href) == Domain + href
    ensures !StartsWith(href, "http") && !StartsWith(href, "/") ==> ResolveHref(href) == CareerSite + href
    ensures ResolveHref(href) == href <==> StartsWith(href, "http")
  {
  }

  /** The candidate is itself an anchor with a non-empty `href`. */
  predicate SelfLinked(e: Element) {
    e.tag == "a" && e.href.Some? && e.href.value != ""
  }

  /** The link of a candidate: its own `href`, else that of its first descendant anchor with one. */
  function LinkOf(e: Element): (r: Option<string>)
    ensures r.None? <==> !SelfLinked(e) && forall d :: d in Descendants(e) ==> !Matches(LinkAnchorQuery, d)
    ensures r.Some? ==> StartsWith(r.value, "http")
    ensures SelfLinked(e) ==> r == Some(ResolveHref(e.href.value))
    ensures !SelfLinked(e) && r.Some? ==>
      exists i :: FirstMatchAt(Descendants(e), LinkAnchorQuery, i) && r.value == ResolveHref(Descendants(e)[i].href.value)
  {
    if SelfLinked(e) then Some(ResolveHref(e.href.value))
    else
      match Find(e, LinkAnchorQuery)
      case None => None
      case Some(a) => Some(ResolveHref(a.href.value))
  }

  /** A candidate that is not itself linked takes the link of the first anchor with an `href` in `find_all` order. */
  lemma LinkSourceOrder(e: Element)
    requires !SelfLinked(e)
    ensures FindAll(e.children, LinkAnchorQuery) == [] ==> LinkOf(e) == None
    ensures var anchors := FindAll(e.children, LinkAnchorQuery);
      anchors != [] ==> anchors[0].href.Some? && LinkOf(e) == Some(ResolveHref(anchors[0].href.value))
  {
    var anchors := FindAll(e.children, LinkAnchorQuery);
    FindIsHeadOfFindAll(e, LinkAnchorQuery);
    if anchors != [] {
      assert anchors[0] in anchors;
    }
  }

  /** The title of a candidate: an anchor's own text, else the text of a heading or anchor below it, else its own text cut to 100 characters. */
  function TitleOf(e: Element): (title: string)
    ensures e.tag == "a" ==> title == e.text
    ensures e.tag != "a" ==>
      (exists d :: d in Descendants(e) && Matches(HeadingOrAnchorQuery, d) && title == d.text) ||
      (title == Take(e.text, MaxFallbackTitle) && forall d :: d in Descendants(e) ==> !Matches(HeadingOrAnchorQuery, d))
  {
    if e.tag == "a" then e.text
    else
      var titled := Find(e, TitledQuery);
      var heading := if titled.Some? then titled else Find(e, HeadingQuery);
      var anchor := if heading.Some? then heading else Find(e, AnchorQuery);
      if anchor.Some? then anchor.value.text else Take(e.text, MaxFallbackTitle)
  }

  /**
   * The order in which a non-anchor candidate looks for its title, stated with
   * `find_all`: the first titled heading or anchor, else the first heading,
   * else the first anchor, else its own truncated text.
   */
  lemma TitleSourceOrder(e: Element)
    requires e.tag != "a"
    ensures FindAll(e.children, TitledQuery) != [] ==>
      TitleOf(e) == FindAll(e.children, TitledQuery)[0].text
    ensures FindAll(e.children, TitledQuery) == [] && FindAll(e.children, HeadingQuery) != [] ==>
      TitleOf(e) == FindAll(e.children, HeadingQuery)[0].text
    ensures FindAll(e.children, TitledQuery) == [] && FindAll(e.children, HeadingQuery) == [] &&
            FindAll(e.children, AnchorQuery) != [] ==>
      TitleOf(e) == FindAll(e.children, AnchorQuery)[0].text
    ensures FindAll(e.children, TitledQuery) == [] && FindAll(e.children, HeadingQuery) == [] &&
            FindAll(e.children, AnchorQuery) == [] ==>
      TitleOf(e) == Take(e.text, MaxFallbackTitle)
  {
    FindIsHeadOfFindAll(e, TitledQuery);
    FindIsHeadOfFindAll(e, HeadingQuery);
    FindIsHeadOfFindAll(e, AnchorQuery);
  }

  /** Some skip keyword occurs in the lower-cased title. */
  predicate Blacklisted(title: string) {
    exists k :: k in SkipKeywords && Contains(Lower(title), k)
  }

  /** The two rejection tests a title must pass: minimum length, then the keyword blacklist. */
  predicate AcceptableTitle(title: string) {
    !(title == "" || |title| < MinTitleLength) && !Blacklisted(title)
  }

  /** Putting text in front of a blacklisted title leaves it blacklisted, since the match is by substring. */
  lemma BlacklistSurvivesPrefix(p: string, title: string)
    requires Blacklisted(title)
    ensures Blacklisted(p + title)
  {
    var k :| k in SkipKeywords && Contains(Lower(title), k);
    LowerAppend(p, title);
    ContainsAfterPrefix(Lower(p), Lower(title), k);
  }

  /** The location: the first location-classed span/div/p below, else the text-node hint, else the default. */
  function LocationOf(e: Element): (location: string)
    ensures (forall d :: d in Descendants(e) ==> !Matches(LocationQuery, d)) ==>
      location == if e.textLocation.Some? then e.textLocation.value else DefaultLocation
    ensures (exists d :: d in Descendants(e) && Matches(LocationQuery, d)) ==>
      exists i :: FirstMatchAt(Descendants(e), LocationQuery, i) && location == Descendants(e)[i].text
  {
    match Find(e, LocationQuery)
    case Some(l) => l.text
    case None =>
      match e.textLocation
      case Some(t) => t
      case None => DefaultLocation
  }

  /** The department: the first department-classed span/div/p below, else empty. */
  function DepartmentOf(e: Element): (department: string)
    ensures (forall d :: d in Descendants(e) ==> !Matches(DepartmentQuery, d)) ==> department == ""
    ensures (exists d :: d in Descendants(e) && Matches(DepartmentQuery, d)) ==>
      exists i :: FirstMatchAt(Descendants(e), DepartmentQuery, i) && department == Descendants(e)[i].text
  {
    match Find(e, DepartmentQuery)
    case Some(d) => d.text
    case None => ""
  }

  /** Location and department come from the first matching element in `find_all` order, else their fallbacks. */
  lemma LocationDepartmentSourceOrder(e: Element)
    ensures FindAll(e.children, LocationQuery) != [] ==> LocationOf(e) == FindAll(e.children, LocationQuery)[0].text
    ensures FindAll(e.children, LocationQuery) == [] && e.textLocation.Some? ==> LocationOf(e) == e.textLocation.value
    ensures FindAll(e.children, LocationQuery) == [] && e.textLocation.None? ==> LocationOf(e) == DefaultLocation
    ensures FindAll(e.children, DepartmentQuery) != [] ==> DepartmentOf(e) == FindAll(e.children, DepartmentQuery)[0].text
    ensures FindAll(e.children, DepartmentQuery) == [] ==> DepartmentOf(e) == ""
  {
    FindIsHeadOfFindAll(e, LocationQuery);
    FindIsHeadOfFindAll(e, DepartmentQuery);
  }

  /** `description_parts`: the title, then the location and department parts when they apply. */
  function DescriptionParts(title: string, location: string, department: string): seq<string> {
    var first := [title];
    var withLocation := if location != "" && location != DefaultLocation then first + ["Location: " + location] else first;
    if department != "" then withLocation + ["Department: " + department] else withLocation
  }

  function Describe(title: string, location: string, department: string): (description: string)
    ensures StartsWith(description, title)
  {
    var parts := DescriptionParts(title, location, department);
    assert parts[0] == title;
    JoinStartsWithFirst(" | ", parts);
    Join(" | ", parts)
  }

  /** The description spelled out without `join`: the title, then " | Location: L" and " | Department: D" when they apply. */
  lemma DescribeShape(title: string, location: string, department: string)
    ensures Describe(title, location, department) ==
      title
      + (if location != "" && location != DefaultLocation then " | " + "Location: " + location else "")
      + (if department != "" then " | " + "Department: " + department else "")
  {
    var sep, l, d := " | ", "Location: " + location, "Department: " + department;
    var parts := DescriptionParts(title, location, department);
    if location != "" && location != DefaultLocation {
      if department != "" {
        assert parts == [title, l, d];
        JoinThree(sep, title, l, d);
      } else {
        assert parts == [title, l];
        JoinTwo(sep, title, l);
      }
    } else if department != "" {
      assert parts == [title, d];
      JoinTwo(sep, title, d);
    } else {
      assert parts == [title];
    }
  }

  /** Every field of a record the scraper keeps, with the guarantees its checks give. */
  predicate IsAcceptedJob(job: JobData) {
    && LinkKey in job && TitleKey in job && LocationKey in job && DepartmentKey in job && DescriptionKey in job
    && AcceptableTitle(job[TitleKey])
    && StartsWith(job[LinkKey], "http")
    && StartsWith(job[DescriptionKey], job[TitleKey])
  }

  /** The five-field `job_data` dictionary. */
  function Record(link: string, title: string, location: string, department: string, description: string): (job: JobData)
    ensures LinkKey in job && TitleKey in job && LocationKey in job && DepartmentKey in job && DescriptionKey in job
    ensures job[LinkKey] == link && job[TitleKey] == title && job[LocationKey] == location
    ensures job[DepartmentKey] == department && job[DescriptionKey] == description
  {
    map[LinkKey := link, TitleKey := title, LocationKey := location,
        DepartmentKey := department, DescriptionKey := description]
  }

  /** The record one candidate contributes, or `None` when the loop body reaches `continue`. */
  function Extract(e: Element): (r: Option<JobData>)
    ensures r.Some? <==> LinkOf(e).Some? && AcceptableTitle(TitleOf(e))
    ensures r.Some? ==> IsAcceptedJob(r.value)
    ensures r.Some? ==> r.value[LinkKey] == LinkOf(e).value && r.value[TitleKey] == TitleOf(e)
    ensures r.Some? ==> r.value[LocationKey] == LocationOf(e) && r.value[DepartmentKey] == DepartmentOf(e)
    ensures r.Some? ==> r.value[DescriptionKey] == Describe(TitleOf(e), LocationOf(e), DepartmentOf(e))
  {
    match LinkOf(e)
    case None => None
    case Some(link) =>
      var title := TitleOf(e);
      if title == "" || |title| < MinTitleLength then None
      else if Blacklisted(title) then None
      else
        var location := LocationOf(e);
        var department := DepartmentOf(e);
        var description := Describe(title, location, department);
        if title != "" && link != "" then
          Some(Record(link, title, location, department, description))
        else None
  }

  /** A candidate with no link of its own and no anchor with an `href` below it yields no job. */
  lemma NoLinkNoJob(e: Element)
    requires !SelfLinked(e)
    requires forall d :: d in Descendants(e) ==> !Matches(LinkAnchorQuery, d)
    ensures Extract(e) == None
  {
  }

  /** The records of a run of candidates, in candidate order. */
  function Collect(cands: seq<Element>): (jobs: seq<JobData>)
    ensures |jobs| <= |cands|
    decreases |cands|
  {
    if cands == [] then []
    else
      match Extract(cands[0])
      case Some(job) => [job] + Collect(cands[1..])
      case None => Collect(cands[1..])
  }

  /** Every collected record was extracted from one of the candidates, and so passed every check. */
  lemma {:induction false} CollectedJobsAccepted(cands: seq<Element>)
    ensures forall j :: j in Collect(cands) ==> IsAcceptedJob(j)
    ensures forall j :: j in Collect(cands) ==> exists c :: c in cands && Extract(c) == Some(j)
    decreases |cands|
  {
    if cands != [] {
      CollectedJobsAccepted(cands[1..]);
      assert forall c :: c in cands[1..] ==> c in cands;
    }
  }

  lemma CollectSingle(c: Element)
    ensures Collect([c]) == if Extract(c).Some? then [Extract(c).value] else []
  {
    assert [c][1..] == [];
  }

  /** Collecting is done candidate by candidate: the records of a concatenation are the concatenated records, so document order is kept. */
  lemma {:induction false} CollectAppend(a: seq<Element>, b: seq<Element>)
    ensures Collect(a + b) == Collect(a) + Collect(b)
    decreases |a|
  {
    if a == [] {
      assert a + b == b;
    } else {
      assert (a + b)[0] == a[0];
      assert (a + b)[1..] == a[1..] + b;
      CollectAppend(a[1..], b);
    }
  }

  /** One step of the accumulation loop: the records of a prefix extended by one candidate. */
  lemma CollectStep(batch: seq<Element>, i: nat)
    requires i < |batch|
    ensures Collect(batch[..i + 1]) == Collect(batch[..i]) + Collect([batch[i]])
  {
    assert batch[..i + 1] == batch[..i] + [batch[i]];
    CollectAppend(batch[..i], [batch[i]]);
  }

  /** The job list of a page. */
  function Jobs(page: seq<Element>): (jobs: seq<JobData>)
    ensures |jobs| <= MaxCandidates
    ensures forall i :: 0 <= i < |jobs| ==> IsAcceptedJob(jobs[i])
    ensures Candidates(page) == [] ==> jobs == []
  {
    var jobs := Collect(Limit(Candidates(page)));
    CollectedJobsAccepted(Limit(Candidates(page)));
    assert forall i :: 0 <= i < |jobs| ==> jobs[i] in jobs;
    jobs
  }

  // ---------------------------------------------------------------------------
  // The scraper's loops
  // ---------------------------------------------------------------------------

  /** Strategy 3: walk every div and article of the page and keep the structured ones. */
  method StructuredCandidates(page: seq<Element>) returns (found: seq<Element>)
    ensures found == Tier(Structural, page)
  {
    var containers := FindAll(page, ContainerQuery);
    found := [];
    for i := 0 to |containers|
      invariant found == Filter(containers[..i], IsStructured)
    {
      var element := containers[i];
      var titleElem := Find(element, HeadingOrAnchorQuery);
      var linkElem := Find(element, LinkAnchorQuery);
      FilterStep(containers, i, IsStructured);
      if titleElem.Some? && linkElem.Some? {
        found := found + [element];
      }
    }
    assert containers[..|containers|] == containers;
  }

  /** The three strategies, each run only when the ones before it found nothing. */
  method FindCandidates(page: seq<Element>) returns (elements: seq<Element>)
    ensures elements == Candidates(page)
  {
    elements := FindAll(page, JobCardQuery);
    if elements == [] {
      var links := FindAll(page, RequisitionQuery);
      elements := Filter(links, HasLongText);
    }
    if elements == [] {
      elements := StructuredCandidates(page);
    }
  }

  /** worldbank_scraper.py:92-111 — the candidate's own `href` when it is an anchor that has one, else the first descendant anchor's. */
  method FindLink(element: Element) returns (link: Option<string>)
    ensures link == LinkOf(element)
    ensures link.Some? ==> StartsWith(link.value, "http")
  {
    if element.tag == "a" && element.href.Some? && element.href.value != "" {
      link := Some(ResolveHref(element.href.value));
    } else {
      var linkElem := Find(element, LinkAnchorQuery);
      if linkElem.None? {
        return None;
      }
      link := Some(ResolveHref(linkElem.value.href.value));
    }
  }

  /** worldbank_scraper.py:114-126 — the title element is looked up with ever wider queries until one is found. */
  method ChooseTitle(element: Element) returns (title: string)
    ensures title == TitleOf(element)
    ensures (element.tag != "a" && Find(element, TitledQuery).None? && Find(element, HeadingQuery).None? &&
             Find(element, AnchorQuery).None?) ==> |title| <= MaxFallbackTitle
  {
    if element.tag == "a" {
      title := element.text;
    } else {
      var titleElem := Find(element, TitledQuery);
      if titleElem.None? {
        titleElem := Find(element, HeadingQuery);
      }
      if titleElem.None? {
        titleElem := Find(element, AnchorQuery);
      }
      if titleElem.Some? {
        title := titleElem.value.text;
      } else {
        title := Take(element.text, MaxFallbackTitle);
      }
    }
  }

  /** worldbank_scraper.py:149-155 — the description is built by appending the parts that apply to a list and joining it. */
  method BuildDescription(title: string, location: string, department: string) returns (description: string)
    ensures description == Describe(title, location, department)
    ensures StartsWith(description, title)
  {
    var parts := [title];
    if location != "" && location != DefaultLocation {
      parts := parts + ["Location: " + location];
    }
    if department != "" {
      parts := parts + ["Department: " + department];
    }
    description := Join(" | ", parts);
  }

  /**
   * The body of the extraction loop for one candidate (worldbank_scraper.py:88-158): the
   * record is filled field by field, and `None` stands for the `continue`
   * statements that skip the candidate.
   */
  method ProcessCandidate(element: Element) returns (result: Option<JobData>)
    ensures result == Extract(element)
  {
    var job: JobData := map[];

    var link := FindLink(element);
    if link.None? {
      return None;
    }
    job := job[LinkKey := link.value];

    var title := ChooseTitle(element);
    job := job[TitleKey := title];
    if title == "" || |title| < MinTitleLength {
      return None;
    }
    if Blacklisted(title) {
      return None;
    }

    var locationElem := Find(element, LocationQuery);
    var location: string;
    if locationElem.Some? {
      location := locationElem.value.text;
    } else if element.textLocation.Some? {
      location := element.textLocation.value;
    } else {
      location := DefaultLocation;
    }
    job := job[LocationKey := location];

    var deptElem := Find(element, DepartmentQuery);
    var department := if deptElem.Some? then deptElem.value.text else "";
    job := job[DepartmentKey := department];

    var description := BuildDescription(title, location, department);
    job := job[DescriptionKey := description];

    if title != "" && link.value != "" {
      return Some(job);
    }
    return None;
  }

  /** The extraction loop over `job_elements[:50]`: each candidate either contributes its record or is skipped. */
  method CollectJobs(batch: seq<Element>) returns (jobs: seq<JobData>)
    ensures jobs == Collect(batch)
  {
    jobs := [];
    for i := 0 to |batch|
      invariant jobs == Collect(batch[..i])
    {
      var element := batch[i];
      CollectStep(batch, i);
      CollectSingle(element);
      var job := ProcessCandidate(element);
      if job.Some? {
        jobs := jobs + [job.value];
      }
    }
    assert batch[..|batch|] == batch;
  }

  /** `scrape_worldbank_jobs` once the page is parsed: pick the candidates, keep the first fifty, extract their records. */
  method ScrapeJobs(page: seq<Element>) returns (jobs: seq<JobData>)
    ensures jobs == Jobs(page)
    ensures |jobs| <= MaxCandidates
    ensures forall i :: 0 <= i < |jobs| ==> IsAcceptedJob(jobs[i])
  {
    var elements := FindCandidates(page);
    var batch := if |elements| <= MaxCandidates then elements else elements[..MaxCandidates];
    assert batch == Limit(Candidates(page));
    jobs := CollectJobs(batch);
  }
}
