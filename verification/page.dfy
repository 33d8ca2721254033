/**
 * The rendered page as the HTML parser hands it to the scraper: a forest of
 * elements, each with its tag name, its class attribute, an optional `href`,
 * its stripped text and its children. Queries mirror the arguments the scraper
 * passes to `find_all` and `find`: a list of tag names, a filter on the class
 * attribute and a filter on `href`.
 */
module Page {
  import opened Wrappers
  import opened Text
  import opened Seqs

  /**
   * `cls` is the element's class list joined by spaces, "" when the element has
   * no class attribute; `text` is its text as `get_text(strip=True)` returns it.
   * `textLocation` is the stripped text of the first text node below the
   * element that mentions Washington, DC, Remote or "Location:", when the parser
   * finds one.
   */
  datatype Element = Element(
    tag: string,
    cls: string,
    href: Option<string>,
    text: string,
    textLocation: Option<string>,
    children: seq<Element>)

  /** All elements of a forest in document order: each element, then its descendants, then its later siblings. */
  function Flatten(forest: seq<Element>): seq<Element>
    decreases forest
  {
    if forest == [] then []
    else [forest[0]] + Flatten(forest[0].children) + Flatten(forest[1..])
  }

  /** The elements strictly below `e`, in document order: what `e.find` searches. */
  function Descendants(e: Element): seq<Element> {
    Flatten(e.children)
  }

  /** Filter on the class attribute: none, or "some keyword occurs in the lower-cased class". */
  datatype ClassFilter = AnyClass | ClassContains(keywords: seq<string>)

  /** Filter on `href`: none, "present" (`href=True`), or "non-empty and containing a keyword once lower-cased". */
  datatype HrefFilter = AnyHref | HasHref | HrefContains(keyword: string)

  datatype Query = Query(names: seq<string>, classFilter: ClassFilter, hrefFilter: HrefFilter)

  predicate ClassMatches(f: ClassFilter, cls: string) {
    match f
    case AnyClass => true
    case ClassContains(keywords) =>
      cls != "" && exists k :: k in keywords && Contains(Lower(cls), k)
  }

  predicate HrefMatches(f: HrefFilter, href: Option<string>) {
    match f
    case AnyHref => true
    case HasHref => href.Some?
    case HrefContains(k) => href.Some? && href.value != "" && Contains(Lower(href.value), k)
  }

  predicate Matches(q: Query, e: Element) {
    e.tag in q.names && ClassMatches(q.classFilter, e.cls) && HrefMatches(q.hrefFilter, e.href)
  }

  /** The elements of `s` that match `q`, in their order in `s`. */
  function MatchesIn(s: seq<Element>, q: Query): (r: seq<Element>)
    ensures forall x :: x in r <==> x in s && Matches(q, x)
    ensures IsSubsequence(r, s)
  {
    Filter(s, x => Matches(q, x))
  }

  /** `find_all(...)` over a forest: every matching element, in document order. */
  function FindAll(forest: seq<Element>, q: Query): (r: seq<Element>)
    ensures forall x :: x in r <==> x in Flatten(forest) && Matches(q, x)
    ensures IsSubsequence(r, Flatten(forest))
  {
    MatchesIn(Flatten(forest), q)
  }

  /** `s[i]` is the first element of `s` that matches `q`. */
  predicate FirstMatchAt(s: seq<Element>, q: Query, i: int) {
    0 <= i < |s| && Matches(q, s[i]) && forall j :: 0 <= j < i ==> !Matches(q, s[j])
  }

  /** The first element of `s` that matches `q`, if any. */
  function FirstMatch(s: seq<Element>, q: Query): (r: Option<Element>)
    ensures r.None? <==> forall i :: 0 <= i < |s| ==> !Matches(q, s[i])
    ensures r.Some? ==> exists i :: 0 <= i < |s| && s[i] == r.value && Matches(q, s[i]) &&
                                    forall j :: 0 <= j < i ==> !Matches(q, s[j])
    decreases |s|
  {
    if s == [] then None
    else if Matches(q, s[0]) then Some(s[0])
    else
      var r := FirstMatch(s[1..], q);
      assert forall i :: 1 <= i < |s| ==> s[i] == s[1..][i - 1];
      r
  }

  /** `e.find(...)`: the first matching element below `e`, in document order. */
  function Find(e: Element, q: Query): (r: Option<Element>)
    ensures r.None? <==> forall d :: d in Descendants(e) ==> !Matches(q, d)
    ensures r.Some? ==> exists i :: FirstMatchAt(Descendants(e), q, i) && r.value == Descendants(e)[i]
  {
    FirstMatch(Descendants(e), q)
  }

  /** `find` is `find_all` limited to one result: the first match is the head of all matches. */
  lemma {:induction false} FirstMatchIsHeadOfMatches(s: seq<Element>, q: Query)
    ensures FirstMatch(s, q) == if MatchesIn(s, q) == [] then None else Some(MatchesIn(s, q)[0])
    decreases |s|
  {
    if s != [] {
      FilterSingle(s[0], x => Matches(q, x));
      assert s == [s[0]] + s[1..];
      FilterAppend([s[0]], s[1..], x => Matches(q, x));
      FirstMatchIsHeadOfMatches(s[1..], q);
    }
  }

  lemma FindIsHeadOfFindAll(e: Element, q: Query)
    ensures Find(e, q) == if FindAll(e.children, q) == [] then None else Some(FindAll(e.children, q)[0])
  {
    FirstMatchIsHeadOfMatches(Descendants(e), q);
  }
}
