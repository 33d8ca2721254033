# World Bank Group job feed: verified model of the extraction and feed pipeline

`worldbank_scraper.py` renders the World Bank Group careers page in a
headless browser and parses it with BeautifulSoup. It picks candidate job
elements with three strategies, each tried only when the earlier ones found
nothing. It turns each of the first fifty candidates into a job record or
skips it. Finally it writes an RSS 2.0 feed with one item per job, but only
when at least one job was found.

This Dafny project models that pipeline from the parsed page onwards:

- `wrappers.dfy` holds `Option`.
- `text.dfy` models `startswith`, the `in` substring test, ASCII `lower()`,
  slicing and `join`.
- `seqs.dfy` models order-preserving filtering, the shape of the list
  comprehensions in the scraper.
- `page.dfy` models the parsed page as a forest of elements. Each element has
  a tag, a class string, an optional `href`, its stripped text and its
  children. `find_all` and `find` are queries over the page in document
  order (pre-order).
- `extractor.dfy` models the three strategies, link resolution, title choice,
  the length and keyword filter, the location and department lookups, the
  description, and the loop that collects job records (`job_data`
  dictionaries, modelled as maps).
- `feed.dfy` models the RSS element tree that `generate_rss_feed` builds,
  before serialisation.
- `pipeline.dfy` models `main`, which writes the feed only when jobs were
  found.

The code that changes state step by step is written as methods with loops:
the strategy-3 loop, the per-candidate body that fills `job_data` field by
field, the accumulation loop and the item loop. Each method is proved equal to
a specification function. The properties are proved about those functions.

## Behaviour worth noting

The model follows what the scraper does:

- The scraper does not deduplicate against an earlier feed.
- It derives no GUID from a hash. The guid text is the job link and its
  `isPermaLink` is `"true"`.
- It wraps nothing in CDATA and writes no per-item `pubDate` or `source`.
- When no jobs are found, nothing is written. No empty feed is produced.
- Strategy 3 does not require the heading-or-anchor and the linked anchor to
  be different elements. One anchor with an `href` satisfies both.
- Any `href` that starts with `http` is kept as it is. That includes a link to
  another site and a relative path such as `httpdocs/job.html`. All the model
  promises about a link is that it starts with `http`.
- A relative `href` that does not start with `/` is appended to
  `https://worldbankgroup.csod.com/ux/ats/careersite/1/`, not to the bare
  domain.
- The description is the title, then `Location: L` and `Department: D`,
  joined with a separator of space, vertical bar, space. It does not include
  the organisation name.

## Model

| member | source | states |
|---|---|---|
| `Text.StartsWith` | worldbank_scraper.py:94-107 | `s.startswith(p)`: `p` is no longer than `s` and equals its first `len(p)` characters |
| `Text.Contains` | worldbank_scraper.py:66 | Python's `sub in s`, as a left-to-right scan over start positions |
| `Text.Join` | worldbank_scraper.py:155 | `sep.join(parts)`: nothing for no parts, the part itself for one, otherwise the parts with one separator between each neighbouring pair |
| `Text.ContainsIffOccurs` | worldbank_scraper.py:133 | the substring test used for every keyword check holds exactly when the keyword occurs at some position, in both directions |
| `Text.Lower` | worldbank_scraper.py:66 | lower-casing keeps the length and maps each character to its ASCII lower-case form |
| `Text.Take` | worldbank_scraper.py:126 | `text[:100]` has length min(len, 100) and is a prefix of the text |
| `Seqs.Filter` | worldbank_scraper.py:73 | a list comprehension keeps exactly the elements that pass, in their original order (a subsequence), and never more of them |
| `Seqs.FilterAppend` | worldbank_scraper.py:78-82 | filtering element by element in a loop gives the same list as filtering the whole list |
| `Page.Flatten` | worldbank_scraper.py:65-67 | document order: each element, then everything below it, then its later siblings; the order in which `find_all` lists and `find` searches (also lines 78-80, 101, 117-121) |
| `Page.Matches` | worldbank_scraper.py:65-67 | what one `find`/`find_all` call accepts: the tag is in its name list, and the `class_` and `href` filters both accept (also lines 72, 78-80, 101, 117-121, 137, 145) |
| `Page.ClassMatches` | worldbank_scraper.py:65-67 | a `class_` keyword filter accepts an element only when its class is non-empty and some keyword occurs in the lower-cased class; no filter accepts everything (also lines 117, 137, 145) |
| `Page.HrefMatches` | worldbank_scraper.py:72 | `href=True` accepts any present `href`; the requisition filter needs a non-empty `href` containing the keyword once lower-cased (also lines 80, 101) |
| `Page.Find` | worldbank_scraper.py:79-80 | `element.find(...)` is nothing exactly when no descendant matches; otherwise it is the first matching descendant in document order (also lines 101, 117-121, 137, 145) |
| `Page.FindAll` | worldbank_scraper.py:65-67 | `find_all` returns exactly the page elements matching the query, as a subsequence of document order |
| `Page.FirstMatch` | worldbank_scraper.py:79-80 | `find` returns nothing exactly when no descendant matches; otherwise it returns a matching descendant with no match before it |
| `Page.FindIsHeadOfFindAll` | worldbank_scraper.py:117-121 | `find` is the first element of `find_all` on the same query, or nothing when that list is empty |
| `Extractor.HasLongText` | worldbank_scraper.py:73 | strategy 2 keeps a link only when its stripped text is longer than 5 characters |
| `Extractor.IsStructured` | worldbank_scraper.py:79-81 | strategy 3 keeps a container having both a heading-or-anchor descendant and an anchor descendant with an `href` |
| `Extractor.Selects` | worldbank_scraper.py:65-83 | what each strategy accepts of one element: a class-keyword div/article/li; a requisition link with long text; a structured div/article |
| `Extractor.Tier` | worldbank_scraper.py:65-83 | each strategy finds exactly the page elements it accepts, in document order: class-keyword div/article/li; `a` with a non-empty href containing "requisition" and text longer than 5; div/article holding a heading-or-anchor and an anchor with an href |
| `Extractor.Chosen` | worldbank_scraper.py:71-77 | the chosen strategy is the first one that finds anything; every earlier strategy found nothing |
| `Extractor.Candidates` | worldbank_scraper.py:61-83 | the candidates are the result of the chosen strategy, in document order; they are empty only when all three strategies find nothing |
| `Extractor.Limit` | worldbank_scraper.py:87 | `[:50]` keeps the first min(n, 50) candidates, in order |
| `Extractor.StructuredCandidates` | worldbank_scraper.py:77-83 | the append loop of strategy 3 produces exactly that strategy's elements |
| `Extractor.FindCandidates` | worldbank_scraper.py:61-83 | the sequence of reassignments of `job_elements` produces the candidate list |
| `Extractor.ResolveHref` | worldbank_scraper.py:94-99 | the link always starts with "http" and ends with the href; an href starting with "http" is kept verbatim |
| `Extractor.ResolveCases` | worldbank_scraper.py:94-109 | an href starting with "/" gets the domain in front, any other relative href the careersite path; the link equals the href exactly when the href starts with "http" |
| `Extractor.SelfLinked` | worldbank_scraper.py:92 | the candidate is itself an `a` whose `href` is present and non-empty |
| `Extractor.LinkOf` | worldbank_scraper.py:92-111 | there is no link exactly when the candidate is not an anchor with a non-empty href and has no descendant anchor with an href; a self-linked anchor resolves its own href, otherwise the href of the first descendant anchor with an href in document order is resolved; the link starts with "http" |
| `Extractor.LinkSourceOrder` | worldbank_scraper.py:100-111 | a candidate that is not itself linked takes the resolved href of the head of `find_all('a', href=True)`, and has no link when that list is empty |
| `Extractor.FindLink` | worldbank_scraper.py:92-111 | the imperative link lookup returns the link `LinkOf` describes |
| `Extractor.NoLinkNoJob` | worldbank_scraper.py:100-111 | a candidate with no own link and no descendant anchor with an href yields no job |
| `Extractor.TitleOf` | worldbank_scraper.py:113-126 | an anchor's title is its own text; otherwise the title is the text of some heading or anchor below, or, when there is none, its own text cut to 100 characters |
| `Extractor.TitleSourceOrder` | worldbank_scraper.py:117-126 | the title comes from the first titled h2/h3/h4/a, else the first h2/h3/h4, else the first a, else the truncated own text |
| `Extractor.ChooseTitle` | worldbank_scraper.py:113-126 | the title lookup, with `title_elem` reassigned step by step, returns the title `TitleOf` describes |
| `Extractor.Blacklisted` | worldbank_scraper.py:132-133 | some skip keyword occurs in the lower-cased title |
| `Extractor.AcceptableTitle` | worldbank_scraper.py:129-134 | a title survives when it is non-empty, at least 5 characters long and not blacklisted |
| `Extractor.BlacklistSurvivesPrefix` | worldbank_scraper.py:132-134 | the keyword filter matches substrings, so a rejected title stays rejected whatever text is put before it |
| `Extractor.LocationOf` | worldbank_scraper.py:136-142 | when a location-classed span/div/p exists, the location is the text of the first one in document order; otherwise it is the text-node hint when there is one, and "World Bank Group" when there is none |
| `Extractor.DepartmentOf` | worldbank_scraper.py:144-146 | when a department-classed span/div/p exists, the department is the text of the first one in document order; otherwise it is "" |
| `Extractor.LocationDepartmentSourceOrder` | worldbank_scraper.py:136-146 | location and department are the text of the head of the matching `find_all` list; when that list is empty, the location is the text-node hint or else "World Bank Group", and the department is "" |
| `Extractor.DescriptionParts` | worldbank_scraper.py:149-153 | the list starts with the title, then "Location: L" when L is non-empty and not "World Bank Group", then "Department: D" when D is non-empty |
| `Extractor.Describe` | worldbank_scraper.py:148-155 | the description always begins with the title |
| `Extractor.DescribeShape` | worldbank_scraper.py:148-155 | the description is the title, then the separator and "Location: L" only when L is non-empty and not "World Bank Group", then the separator and "Department: D" only when D is non-empty |
| `Extractor.BuildDescription` | worldbank_scraper.py:148-155 | appending the applicable parts to a list and joining it with the separator gives `Describe`'s description |
| `Extractor.Record` | worldbank_scraper.py:89-155 | the `job_data` dictionary holds the five keys link, title, location, department and description, each mapped to the given value |
| `Extractor.Extract` | worldbank_scraper.py:88-158 | a candidate yields a record exactly when it has a link and its title has length ≥ 5 and contains no skip keyword; the record has all five fields, carries the candidate's link, title, location and department, a link starting with "http", and the description `Describe` composes from that title, location and department |
| `Extractor.ProcessCandidate` | worldbank_scraper.py:88-158 | filling `job_data` field by field, with early exits for `continue`, gives `Extract`'s result |
| `Extractor.Collect` | worldbank_scraper.py:87-158 | the record list never has more entries than there are candidates |
| `Extractor.CollectAppend` | worldbank_scraper.py:87-158 | collecting is done candidate by candidate, so the records of a concatenation are the concatenation of the records; document order is kept |
| `Extractor.CollectedJobsAccepted` | worldbank_scraper.py:128-158 | every collected record passed the title checks, has a link starting with "http", and was extracted from one of the candidates |
| `Extractor.CollectJobs` | worldbank_scraper.py:87-163 | the accumulation loop returns the records of the candidates it visits, in order |
| `Extractor.Jobs` | worldbank_scraper.py:85-158 | a page yields at most 50 jobs, each an accepted record, and none when there are no candidates |
| `Extractor.ScrapeJobs` | worldbank_scraper.py:61-165 | the scraper's job list is `Jobs(page)`: at most 50 accepted records |
| `Feed.Get` | worldbank_scraper.py:215-226 | `dict.get` returns the stored value when the key is present and the default otherwise |
| `Feed.ItemOf` | worldbank_scraper.py:211-226 | an item copies the job's title, link and description when present, and otherwise uses "Untitled Position", "" and ""; its guid text equals its link and `isPermaLink` is "true" |
| `Feed.FeedOf` | worldbank_scraper.py:182-226 | the feed is RSS version 2.0 with the fixed channel title and the given build date, and has exactly one item per job, in job order |
| `Feed.GenerateFeed` | worldbank_scraper.py:182-226 | the loop that adds one `item` per job builds exactly `FeedOf` |
| `Feed.ScrapedJobMakesFaithfulItem` | worldbank_scraper.py:211-226 | for a scraped record, the item shows the job's own title, link and description; the guid is the link with `isPermaLink="true"`; the link starts with "http"; the title is at least 5 long |
| `Pipeline.Run` | worldbank_scraper.py:249-257 | a feed is produced exactly when the job list is non-empty, and it is the feed of those jobs |
| `Pipeline.PublishedFeedIsWellFormed` | worldbank_scraper.py:252-254 | a written feed has between 1 and 50 items; each item's link is its job's link, starts with "http" and is its guid; each title passed the length and keyword checks |
| `Pipeline.PublishedItemFromCandidate` | worldbank_scraper.py:87-158 | every item of the feed comes from one of the page's candidates: its link is that candidate's resolved link, its title the chosen title, and its description the composed description (also lines 211-226) |
| `Pipeline.NoCandidatesNoFeed` | worldbank_scraper.py:252-257 | when no strategy finds anything the job list is empty, so no feed is written |

## Left out

- Browser automation: driver set-up, navigation, the fixed waits, scrolling
  and reading `page_source` (worldbank_scraper.py:20-58, 171). The model starts
  from the parsed page.
- HTML parsing and `get_text(strip=True)`. Each element carries its stripped
  text as given.
- The class attribute is one space-joined string. BeautifulSoup tests a
  class filter against each class value and against the joined string. Every
  class keyword here (`job-card`, `job-item`, `position`, `vacancy`,
  `requisition`, `title`, `location`, `department`) is free of spaces, so both
  readings agree.
- The fallback that searches text nodes for `Washington`, `DC`, `Remote` or
  `Location:` (worldbank_scraper.py:139-141). It depends on how the parser
  splits text nodes. Each element carries the fallback's result as an opaque
  optional string, `textLocation`.
- The exception handlers (worldbank_scraper.py:161-163, 167-168). No step of
  the model can fail, so the per-candidate "skip on error" path and the
  whole-page "return what was gathered" path are never taken.
- XML serialisation: namespace registration, `tostring`, `minidom`
  pretty-printing and blank-line stripping (worldbank_scraper.py:179,
  229-234). The model stops at the element tree.
- The clock (worldbank_scraper.py:208). The formatted build date is a
  parameter.
- File writing (worldbank_scraper.py:237-238) and all console output.
- Text.Lower: models `str.lower()` on ASCII letters only. Python also
  lower-cases non-ASCII letters, which the model leaves unchanged.
- The per-candidate loop body is a method of its own,
  `Extractor.ProcessCandidate`. Each `continue` becomes an early return of
  `None`.
