/**
 * The Fannie Mae Lender Letters scraper: the letter an element names, the
 * update built from it, and the first twenty elements of the page, with
 * the two demo letters returned when the page cannot be fetched.
 */
module FannieScraper {
  import opened Wrappers
  import opened Strings
  import opened Scrapers
  import Changes

  const LetterBaseUrl := "https://singlefamily.fanniemae.com"

  /** The formats `_parse_date` tries, in order. */
  const DateFormats: seq<string> := ["%B %d, %Y", "%m/%d/%Y", "%Y-%m-%d", "%b %d, %Y"]

  /** The keywords of `_detect_affected_sections` in dictionary order, with their Selling Guide sections. */
  const SectionKeywords: Keywords := [
    ("homeready", ["B5-6-01", "B5-6-02", "B5-6-03"]),
    ("income", ["B3-3.1", "B5-6-02"]),
    ("credit", ["B3-5.1-01", "B5-6-02"]),
    ("dti", ["B3-6-02", "B5-6-02"]),
    ("ltv", ["B2-1.2-01", "B5-6-01"]),
    ("loan limit", ["B2-1-01"]),
    ("conforming", ["B2-1-01"]),
    ("manufactured", ["B5-6-01", "B4-1.4"]),
    ("condo", ["B4-2.1", "B5-6-01"])
  ]

  /**
   * `LL-(\d{4})-(\d{1,2})` tried at `p`: the year and the number. The
   * number takes a second digit when there is one; nothing follows it in
   * the pattern, so giving it back never helps.
   */
  function LetterAt(text: string, p: nat): (r: Option<(string, string)>)
    ensures r.Some? ==> LetterIn(text, p, r.value.0, r.value.1)
  {
    if p + 9 <= |text| && text[p..p + 3] == "LL-" && AllDigits(text[p + 3..p + 7]) && text[p + 7] == '-'
      && IsDigit(text[p + 8])
    then
      var n := if p + 9 < |text| && IsDigit(text[p + 9]) then 2 else 1;
      Some((text[p + 3..p + 7], text[p + 8..p + 8 + n]))
    else None
  }

  /** The letter `LL-year-number` stands in the text at `p`, its year four digits and its number one or two. */
  predicate LetterIn(text: string, p: nat, year: string, number: string) {
    && |year| == 4 && AllDigits(year) && 1 <= |number| <= 2 && AllDigits(number)
    && p + 8 + |number| <= |text|
    && text[p..p + 3] == "LL-" && text[p + 3..p + 7] == year && text[p + 7] == '-'
    && text[p + 8..p + 8 + |number|] == number
  }

  /** `number.zfill(2)` for a string of digits. */
  function ZFill2(s: string): string {
    if |s| >= 2 then s else if |s| == 1 then "0" + s else "00"
  }

  /** A leading zero does not change the value of a string of digits. */
  lemma {:induction false} LeadingZero(s: string)
    requires AllDigits(s)
    ensures AllDigits("0" + s) && DigitsValue("0" + s) == DigitsValue(s)
    decreases |s|
  {
    if |s| > 0 {
      var init := s[..|s| - 1];
      assert ("0" + s)[..|s|] == "0" + init;
      LeadingZero(init);
    }
  }

  /** Padding keeps the letter number's value and makes it two digits. */
  lemma ZFill2Value(s: string)
    requires AllDigits(s) && 1 <= |s| <= 2
    ensures |ZFill2(s)| == 2 && AllDigits(ZFill2(s)) && DigitsValue(ZFill2(s)) == DigitsValue(s)
  {
    if |s| == 1 { LeadingZero(s); }
  }

  /** The update number: `LL-year-nn`. */
  function LetterNumber(year: string, number: string): string {
    "LL-" + year + "-" + ZFill2(number)
  }

  /** The title the letter is stored with before it is cut: the title element's text, or one made from the number. */
  function FullTitle(e: Element, number: string): string {
    if e.title.Some? then e.title.value else "Lender Letter " + number
  }

  /** `_parse_letter_element`: none unless the element's text names a letter. */
  function ParseLetterElement(e: Element, today: Date, strptime: Strptime): Option<Update> {
    match Search(e.text, 0, LetterAt)
    case None => None
    case Some((_, (year, number))) =>
      var num := LetterNumber(year, number);
      var title := FullTitle(e, num);
      Some(Update(
        "lender_letter", num, Take(title, TitleLimit), PublishDate(e, DateFormats, strptime, today),
        None, ResolveUrl(LetterBaseUrl, e.href), "Fannie Mae " + num + ": " + title,
        AffectedSections(SectionKeywords, title)))
  }

  /** Some `LL-dddd-d` stands in the text. */
  ghost predicate NamesLetter(text: string) {
    exists p: nat, year: string, number: string :: LetterIn(text, p, year, number)
  }

  /** An element gives no update exactly when no `LL-dddd-d` stands in its text. */
  lemma NoLetterNoUpdate(e: Element, today: Date, strptime: Strptime)
    ensures ParseLetterElement(e, today, strptime).None? <==> !NamesLetter(e.text)
  {
    if NamesLetter(e.text) {
      var p: nat, year: string, number: string :| LetterIn(e.text, p, year, number);
      assert AllDigits(e.text[p + 3..p + 7]);
      assert IsDigit(number[0]) && e.text[p + 8] == number[0];
      assert LetterAt(e.text, p).Some?;
    }
  }

  /**
   * The update number names the first letter in the text: `LL-`, its four
   * year digits, and its number padded to two digits with the same value.
   */
  lemma LetterNumberNamesFirst(e: Element, today: Date, strptime: Strptime)
    requires ParseLetterElement(e, today, strptime).Some?
    ensures exists p: nat, year: string, number: string ::
      && LetterIn(e.text, p, year, number)
      && (forall q :: 0 <= q < p ==> LetterAt(e.text, q).None?)
      && ParseLetterElement(e, today, strptime).value.updateNumber == "LL-" + year + "-" + ZFill2(number)
      && |ZFill2(number)| == 2 && DigitsValue(ZFill2(number)) == DigitsValue(number)
  {
    var (p, (year, number)) := Search(e.text, 0, LetterAt).value;
    ZFill2Value(number);
    assert LetterIn(e.text, p, year, number);
  }

  /**
   * The stored title is the first 500 characters of the title, while the
   * summary carries the whole title after `Fannie Mae <number>: `.
   */
  lemma TitleCutSummaryWhole(e: Element, today: Date, strptime: Strptime)
    requires ParseLetterElement(e, today, strptime).Some?
    ensures var u := ParseLetterElement(e, today, strptime).value;
      var title := FullTitle(e, u.updateNumber);
      var lead := "Fannie Mae " + u.updateNumber + ": ";
      && |u.title| == Min(TitleLimit, |title|) && u.title == title[..|u.title|]
      && |u.summary| == |lead| + |title| && u.summary[..|lead|] == lead && u.summary[|lead|..] == title
  {
    var u := ParseLetterElement(e, today, strptime).value;
    var title := FullTitle(e, u.updateNumber);
    var lead := "Fannie Mae " + u.updateNumber + ": ";
    assert u.summary == lead + title;
  }

  /** The element parser a run uses, with its clock and date reader. */
  function LetterParser(today: Date, strptime: Strptime): Element -> Option<Update> {
    e => ParseLetterElement(e, today, strptime)
  }

  /** `_get_mock_updates`. */
  const MockUpdates: seq<Update> := [
    Update("lender_letter", "LL-2025-04", "Updates to HomeReady Income Limits",
      Changes.Date(2025, 1, 15), Some(Changes.Date(2025, 3, 1)),
      Some("https://singlefamily.fanniemae.com/lender-letter/ll-2025-04"),
      "This lender letter announces updates to HomeReady income limits based on the latest Area Median Income (AMI) data from FHFA.",
      {"B5-6-01", "B5-6-02"}),
    Update("lender_letter", "LL-2025-03", "2025 Conforming Loan Limits",
      Changes.Date(2025, 1, 10), Some(Changes.Date(2025, 1, 1)),
      Some("https://singlefamily.fanniemae.com/lender-letter/ll-2025-03"),
      "Announces the 2025 conforming loan limits. The baseline limit for single-family properties increased to $806,500.",
      {"B2-1-01"})
  ]

  /**
   * `fetch_updates`: the letters of the page's first twenty elements, or
   * the demo letters when the page could not be fetched. `page` is the
   * selected elements, or the error the request raised.
   */
  method FetchUpdates(page: Result<seq<Element>>, today: Date, strptime: Strptime) returns (updates: seq<Update>)
    ensures page.Err? ==> updates == MockUpdates
    ensures page.Ok? ==> updates == ParsedAll(page.value[..Min(ElementLimit, |page.value|)], LetterParser(today, strptime))
    ensures page.Ok? ==> |updates| <= ElementLimit
  {
    match page {
      case Err(_) =>
        updates := MockUpdates;
      case Ok(els) =>
        updates := CollectUpdates(els, LetterParser(today, strptime));
    }
  }
}
