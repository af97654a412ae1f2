/**
 * What the two policy-update scrapers share: the page element as the
 * parsers see it, the update record they build, the link a relative href
 * resolves to, the date read with the first format that parses, the guide
 * sections a title's keywords point to, and the loop over the first twenty
 * elements of the page. Fetching the page and selecting its elements are
 * not part of this model: the elements arrive already selected.
 */
module Scrapers {
  import opened Wrappers
  import opened Strings
  import Changes

  type Date = Changes.Date

  /**
   * A page element: its whole text, the stripped text of its title element
   * and of its date element when it has them, and the `href` of its first
   * link when it has one.
   */
  datatype Element = Element(text: string, title: Option<string>, date: Option<string>, href: Option<string>)

  /** The update dictionary a scraper returns. */
  datatype Update = Update(
    updateType: string, updateNumber: string, title: string, publishDate: Date,
    effectiveDate: Option<Date>, sourceUrl: Option<string>, summary: string,
    affectedSections: set<string>)

  /** `datetime.strptime(text, format).date()`, or none when it raises `ValueError`. */
  type Strptime = (string, string) -> Option<Date>

  /** A keyword table in its dictionary order: each keyword with the sections it points to. */
  type Keywords = seq<(string, seq<string>)>

  /** At most this many page elements are parsed. */
  const ElementLimit: nat := 20

  /** A stored title is cut to this many characters. */
  const TitleLimit: nat := 500

  function Min(a: nat, b: nat): nat { if a < b then a else b }

  // ---------------------------------------------------------------------
  // re.search
  // ---------------------------------------------------------------------

  /** `re.search` from `p`: the first position where `at` matches, with what it matched. */
  function Search<T>(text: string, p: nat, at: (string, nat) -> Option<T>): (r: Option<(nat, T)>)
    ensures r.Some? ==> p <= r.value.0 <= |text| && at(text, r.value.0) == Some(r.value.1)
    ensures r.Some? ==> forall q :: p <= q < r.value.0 ==> at(text, q).None?
    ensures r.None? <==> forall q :: p <= q <= |text| ==> at(text, q).None?
    decreases |text| + 1 - p
  {
    if p > |text| then None
    else
      match at(text, p)
      case Some(v) => Some((p, v))
      case None => Search(text, p + 1, at)
  }

  // ---------------------------------------------------------------------
  // Links
  // ---------------------------------------------------------------------

  /**
   * The source link of an element: a site-relative href is put after the
   * site's base URL, an absolute `http` one is kept, and anything else, a
   * missing or empty href included, gives none.
   */
  function ResolveUrl(base: string, href: Option<string>): (r: Option<string>)
    ensures r.Some? <==> href.Some? && (StartsWith(href.value, "/") || StartsWith(href.value, "http"))
    ensures r.Some? && StartsWith(href.value, "/") ==> r.value == base + href.value
    ensures r.Some? && !StartsWith(href.value, "/") ==> r.value == href.value
  {
    match href
    case None => None
    case Some(h) =>
      if h == "" then None
      else if StartsWith(h, "/") then Some(base + h)
      else if StartsWith(h, "http") then Some(h)
      else None
  }

  /** With an `http` base, every link resolved is absolute and ends with the href it came from. */
  lemma ResolvedAbsolute(base: string, href: Option<string>)
    requires StartsWith(base, "http")
    requires ResolveUrl(base, href).Some?
    ensures StartsWith(ResolveUrl(base, href).value, "http")
    ensures var u := ResolveUrl(base, href).value; |href.value| <= |u| && u[|u| - |href.value|..] == href.value
  {
    var h := href.value;
    if StartsWith(h, "/") {
      StartsWithConcat(base, h);
      assert (base + h)[..4] == base[..4];
      assert (base + h)[|base|..] == h;
    }
  }

  // ---------------------------------------------------------------------
  // Dates
  // ---------------------------------------------------------------------

  /** The first of `formats[k..]` that parses `text`, or -1. */
  function FormatIndex(text: string, formats: seq<string>, strptime: Strptime, k: nat): (i: int)
    ensures i == -1 || k <= i < |formats|
    ensures i >= 0 ==> strptime(text, formats[i]).Some?
    ensures forall j :: k <= j < |formats| && (i < 0 || j < i) ==> strptime(text, formats[j]).None?
    decreases |formats| - k
  {
    if k >= |formats| then -1
    else if strptime(text, formats[k]).Some? then k
    else FormatIndex(text, formats, strptime, k + 1)
  }

  /** `formats[i]` is the first format that parses `text`, and `r` is what it reads. */
  predicate FirstParsing(text: string, formats: seq<string>, strptime: Strptime, i: int, r: Option<Date>) {
    && 0 <= i < |formats| && r == strptime(text, formats[i])
    && forall j :: 0 <= j < i ==> strptime(text, formats[j]).None?
  }

  /**
   * `_parse_date`: nothing for an empty string, else the stripped string
   * read with the first format that parses it, or nothing when none does.
   */
  function ParseDate(text: string, formats: seq<string>, strptime: Strptime): (r: Option<Date>)
    ensures text == "" ==> r.None?
    ensures text != "" ==> (r.Some? <==> exists j :: 0 <= j < |formats| && strptime(Strip(text), formats[j]).Some?)
    ensures r.Some? ==> exists i :: FirstParsing(Strip(text), formats, strptime, i, r)
  {
    if text == "" then None
    else
      var i := FormatIndex(Strip(text), formats, strptime, 0);
      if i < 0 then None
      else
        assert FirstParsing(Strip(text), formats, strptime, i, strptime(Strip(text), formats[i]));
        strptime(Strip(text), formats[i])
  }

  /** The element's date text, the empty string when it has no date element. */
  function DateText(e: Element): string {
    e.date.UnwrapOr("")
  }

  /** `self._parse_date(date_text) or date.today()`: a date is always true. */
  function PublishDate(e: Element, formats: seq<string>, strptime: Strptime, today: Date): Date {
    ParseDate(DateText(e), formats, strptime).UnwrapOr(today)
  }

  // ---------------------------------------------------------------------
  // Affected sections
  // ---------------------------------------------------------------------

  /** `set(s)`. */
  function ToSet(s: seq<string>): (r: set<string>)
    ensures forall x :: x in r <==> x in s
  {
    set i | 0 <= i < |s| :: s[i]
  }

  /** Section `x` belongs to a keyword of the table that occurs in `lowered`. */
  predicate Affects(table: Keywords, lowered: string, x: string) {
    exists k :: 0 <= k < |table| && Contains(lowered, table[k].0) && x in table[k].1
  }

  /** The sections of the first `n` keywords that occur in `lowered`. */
  function Gathered(table: Keywords, lowered: string, n: nat): (r: set<string>)
    requires n <= |table|
    ensures forall x :: x in r <==> exists k :: 0 <= k < n && Contains(lowered, table[k].0) && x in table[k].1
  {
    if n == 0 then {}
    else
      var before := Gathered(table, lowered, n - 1);
      if Contains(lowered, table[n - 1].0) then before + ToSet(table[n - 1].1) else before
  }

  /** `_detect_affected_sections`: every section of every keyword in the lower-cased title, once. */
  function AffectedSections(table: Keywords, title: string): (r: set<string>)
    ensures forall x :: x in r <==> Affects(table, Lower(title), x)
  {
    Gathered(table, Lower(title), |table|)
  }

  /**
   * `_detect_affected_sections`: the loop that extends the list with the
   * sections of each keyword found, and the set the list becomes.
   */
  method DetectAffectedSections(table: Keywords, title: string) returns (r: set<string>)
    ensures r == AffectedSections(table, title)
  {
    var lowered := Lower(title);
    var sections: seq<string> := [];
    for k := 0 to |table|
      invariant ToSet(sections) == Gathered(table, lowered, k)
    {
      if Contains(lowered, table[k].0) {
        sections := sections + table[k].1;
      }
    }
    r := ToSet(sections);
  }

  // ---------------------------------------------------------------------
  // The element loop
  // ---------------------------------------------------------------------

  /** What the element parser makes of each element, its updates kept in order. */
  function ParsedAll(els: seq<Element>, parse: Element -> Option<Update>): (r: seq<Update>)
    ensures |r| <= |els|
  {
    if |els| == 0 then []
    else
      var before := ParsedAll(els[..|els| - 1], parse);
      match parse(els[|els| - 1])
      case None => before
      case Some(u) => before + [u]
  }

  /** An update is kept exactly when some element parses to it. */
  lemma {:induction false} ParsedMember(els: seq<Element>, parse: Element -> Option<Update>, u: Update)
    ensures u in ParsedAll(els, parse) <==> exists i :: 0 <= i < |els| && parse(els[i]) == Some(u)
  {
    if |els| > 0 {
      var init := els[..|els| - 1];
      ParsedMember(init, parse, u);
      assert forall i :: 0 <= i < |init| ==> init[i] == els[i];
    }
  }

  /**
   * The loop over `elements[:20]`: the updates of the first twenty
   * elements, at most twenty of them, each one parsed from one of those
   * elements.
   */
  method CollectUpdates(els: seq<Element>, parse: Element -> Option<Update>) returns (updates: seq<Update>)
    ensures updates == ParsedAll(els[..Min(ElementLimit, |els|)], parse)
    ensures |updates| <= ElementLimit
  {
    var n := Min(ElementLimit, |els|);
    updates := [];
    for i := 0 to n
      invariant updates == ParsedAll(els[..i], parse)
    {
      assert els[..i + 1][..i] == els[..i];
      match parse(els[i]) {
        case None =>
        case Some(u) => updates := updates + [u];
      }
    }
  }

  /** The elements after the twentieth are never looked at. */
  lemma FirstElementsOnly(els: seq<Element>, more: seq<Element>, parse: Element -> Option<Update>)
    requires |els| >= ElementLimit
    ensures ParsedAll((els + more)[..Min(ElementLimit, |els + more|)], parse)
      == ParsedAll(els[..Min(ElementLimit, |els|)], parse)
  {
    assert (els + more)[..ElementLimit] == els[..ElementLimit];
  }
}
