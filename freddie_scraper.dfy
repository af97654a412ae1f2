/**
 * The Freddie Mac Bulletins scraper: the bulletin an element names, its
 * title with a leading `Bulletin <number> -` removed, the update built
 * from it, and the first twenty elements of the page, with the three demo
 * bulletins returned when the page cannot be fetched.
 */
module FreddieScraper {
  import opened Wrappers
  import opened Strings
  import opened Scrapers
  import GuideSections
  import Changes

  const BulletinBaseUrl := "https://guide.freddiemac.com"

  /** The formats `_parse_date` tries, in order. */
  const DateFormats: seq<string> := ["%B %d, %Y", "%m/%d/%Y", "%Y-%m-%d", "%b %d, %Y", "%m-%d-%Y"]

  /** The keywords of `_detect_affected_sections` in dictionary order, with their Seller/Servicer Guide sections. */
  const SectionKeywords: Keywords := [
    ("home possible", ["4501.5", "4501.9"]),
    ("income", ["5401", "4501.5"]),
    ("credit", ["5201", "4501.5"]),
    ("dti", ["5401", "4501.5"]),
    ("ltv", ["4203", "4501.5"]),
    ("loan limit", ["4201"]),
    ("manufactured", ["5703", "4501.5"]),
    ("condo", ["5701", "5601.1"]),
    ("co-op", ["5702"]),
    ("ami", ["4501.5"])
  ]

  /**
   * `(\d{4})-(\d{1,2})` tried at `p`: the year and the number. The search
   * pattern also allows `Bulletin` and spaces before the year; that
   * optional prefix never changes the groups: the first place the whole
   * pattern matches either starts with the year, or starts `Bulletin`
   * followed by spaces and then the first place at which the digits match.
   */
  function BulletinAt(text: string, p: nat): (r: Option<(string, string)>)
    ensures r.Some? ==> BulletinIn(text, p, r.value.0, r.value.1)
  {
    if p + 6 <= |text| && AllDigits(text[p..p + 4]) && text[p + 4] == '-' && IsDigit(text[p + 5]) then
      var n := if p + 6 < |text| && IsDigit(text[p + 6]) then 2 else 1;
      Some((text[p..p + 4], text[p + 5..p + 5 + n]))
    else None
  }

  /** The bulletin `year-number` stands in the text at `p`, its year four digits and its number one or two. */
  predicate BulletinIn(text: string, p: nat, year: string, number: string) {
    && |year| == 4 && AllDigits(year) && 1 <= |number| <= 2 && AllDigits(number)
    && p + 5 + |number| <= |text|
    && text[p..p + 4] == year && text[p + 4] == '-' && text[p + 5..p + 5 + |number|] == number
  }

  /** Some `dddd-d` stands in the text. */
  ghost predicate NamesBulletin(text: string) {
    exists p: nat, year: string, number: string :: BulletinIn(text, p, year, number)
  }

  // ---------------------------------------------------------------------
  // The title cleanup: re.sub(r"^Bulletin\s+\d{4}-\d+\s*[-:]\s*", "", title)
  // ---------------------------------------------------------------------

  /**
   * Where the prefix `^Bulletin\s+\d{4}-\d+\s*[-:]\s*` ends, if the title
   * starts with one. Every run is greedy, and giving anything back never
   * helps: what follows each run cannot be one of its own characters.
   */
  function PrefixEnd(t: string): (r: Option<nat>)
    ensures r.Some? ==> 8 < r.value <= |t| && (r.value == |t| || !IsSpace(t[r.value]))
  {
    if StartsWith(t, "Bulletin") then
      var a := GuideSections.RunEnd(t, 8, IsSpace);
      if a == 8 || a + 5 > |t| || !AllDigits(t[a..a + 4]) || t[a + 4] != '-' then None
      else
        var b := GuideSections.RunEnd(t, a + 5, IsDigit);
        if b == a + 5 then None
        else
          var c := GuideSections.RunEnd(t, b, IsSpace);
          if c == |t| || (t[c] != '-' && t[c] != ':') then None
          else
            var d := GuideSections.RunEnd(t, c + 1, IsSpace);
            Some(d)
    else None
  }

  /** All characters of `t` in `[lo, hi)` satisfy `p`. */
  predicate All(t: string, lo: nat, hi: nat, p: char -> bool)
    requires lo <= hi <= |t|
  {
    forall k :: lo <= k < hi ==> p(t[k])
  }

  /**
   * The title starts with the prefix, ending at `d`: `Bulletin`, spaces up
   * to `a`, four digits, a hyphen, digits up to `b`, spaces up to `c`, a
   * hyphen or colon, and spaces up to `d`, where no space follows.
   */
  predicate PrefixShape(t: string, a: nat, b: nat, c: nat, d: nat) {
    && StartsWith(t, "Bulletin") && 8 < a && a + 5 < b <= c < d <= |t|
    && All(t, 8, a, IsSpace) && AllDigits(t[a..a + 4]) && t[a + 4] == '-'
    && All(t, a + 5, b, IsDigit) && All(t, b, c, IsSpace)
    && (t[c] == '-' || t[c] == ':')
    && All(t, c + 1, d, IsSpace) && (d == |t| || !IsSpace(t[d]))
  }

  /** What the pattern takes off has the prefix's shape. */
  lemma PrefixSound(t: string)
    requires PrefixEnd(t).Some?
    ensures exists a, b, c :: PrefixShape(t, a, b, c, PrefixEnd(t).value)
  {
    var a := GuideSections.RunEnd(t, 8, IsSpace);
    var b := GuideSections.RunEnd(t, a + 5, IsDigit);
    var c := GuideSections.RunEnd(t, b, IsSpace);
    assert PrefixShape(t, a, b, c, PrefixEnd(t).value);
  }

  /** Every prefix of that shape is the one found. */
  lemma PrefixFound(t: string, a: nat, b: nat, c: nat, d: nat)
    requires PrefixShape(t, a, b, c, d)
    ensures PrefixEnd(t) == Some(d)
  {
    GuideSections.RunEndIs(t, 8, IsSpace, a);
    GuideSections.RunEndIs(t, a + 5, IsDigit, b);
    GuideSections.RunEndIs(t, b, IsSpace, c);
    GuideSections.RunEndIs(t, c + 1, IsSpace, d);
  }

  /** The title with its bulletin prefix removed; `^` anchors the pattern, so at most one prefix goes. */
  function CleanBulletinTitle(t: string): (r: string)
    ensures |r| <= |t| && r == t[|t| - |r|..]
    ensures !StartsWith(t, "Bulletin") ==> r == t
    ensures r != t ==> r == "" || !IsSpace(r[0])
  {
    match PrefixEnd(t)
    case None => t
    case Some(d) => t[d..]
  }

  /** A title of the prefix's shape loses exactly the prefix. */
  lemma PrefixRemoved(t: string, a: nat, b: nat, c: nat, d: nat)
    requires PrefixShape(t, a, b, c, d)
    ensures CleanBulletinTitle(t) == t[d..]
  {
    PrefixFound(t, a, b, c, d);
  }

  /** The title made from the number when there is no title element has no separator, and is kept whole. */
  lemma DefaultTitleKept(year: string, number: string)
    requires |year| == 4 && AllDigits(year) && |number| > 0 && AllDigits(number)
    ensures CleanBulletinTitle("Bulletin " + year + "-" + number) == "Bulletin " + year + "-" + number
  {
    var t := "Bulletin " + year + "-" + number;
    assert forall k :: 0 <= k < |year| ==> t[9 + k] == year[k];
    assert forall k :: 0 <= k < |number| ==> t[14 + k] == number[k];
    assert t[..8] == "Bulletin" && t[8] == ' ' && t[13] == '-';
    GuideSections.RunEndIs(t, 8, IsSpace, 9);
    assert t[9..13] == year;
    GuideSections.RunEndIs(t, 14, IsDigit, |t|);
  }

  // ---------------------------------------------------------------------
  // The element parser
  // ---------------------------------------------------------------------

  /** The update number: `year-number`, the number as written. */
  function BulletinNumber(year: string, number: string): string {
    year + "-" + number
  }

  /** The title before the cleanup: the title element's text, or one made from the number. */
  function FullTitle(e: Element, number: string): string {
    if e.title.Some? then e.title.value else "Bulletin " + number
  }

  /** `_parse_bulletin_element`: none unless the element's text names a bulletin. */
  function ParseBulletinElement(e: Element, today: Date, strptime: Strptime): Option<Update> {
    match Search(e.text, 0, BulletinAt)
    case None => None
    case Some((_, (year, number))) =>
      var num := BulletinNumber(year, number);
      var title := CleanBulletinTitle(FullTitle(e, num));
      Some(Update(
        "bulletin", num, Take(title, TitleLimit), PublishDate(e, DateFormats, strptime, today),
        None, ResolveUrl(BulletinBaseUrl, e.href), "Freddie Mac Bulletin " + num + ": " + title,
        AffectedSections(SectionKeywords, title)))
  }

  /** An element gives no update exactly when no `dddd-d` stands in its text. */
  lemma NoBulletinNoUpdate(e: Element, today: Date, strptime: Strptime)
    ensures ParseBulletinElement(e, today, strptime).None? <==> !NamesBulletin(e.text)
  {
    if NamesBulletin(e.text) {
      var p: nat, year: string, number: string :| BulletinIn(e.text, p, year, number);
      assert AllDigits(e.text[p..p + 4]);
      assert IsDigit(number[0]) && e.text[p + 5] == number[0];
      assert BulletinAt(e.text, p).Some?;
    }
  }

  /** The update number names the first bulletin in the text as written there: `year-number`, without padding. */
  lemma BulletinNumberNamesFirst(e: Element, today: Date, strptime: Strptime)
    requires ParseBulletinElement(e, today, strptime).Some?
    ensures exists p: nat, year: string, number: string ::
      && BulletinIn(e.text, p, year, number)
      && (forall q :: 0 <= q < p ==> BulletinAt(e.text, q).None?)
      && ParseBulletinElement(e, today, strptime).value.updateNumber == year + "-" + number
  {
    var (p, (year, number)) := Search(e.text, 0, BulletinAt).value;
    assert BulletinIn(e.text, p, year, number);
  }

  /**
   * The stored title is the first 500 characters of the cleaned title,
   * while the summary carries the whole cleaned title after
   * `Freddie Mac Bulletin <number>: `, and the sections are found in it.
   */
  lemma TitleCutSummaryWhole(e: Element, today: Date, strptime: Strptime)
    requires ParseBulletinElement(e, today, strptime).Some?
    ensures var u := ParseBulletinElement(e, today, strptime).value;
      var title := CleanBulletinTitle(FullTitle(e, u.updateNumber));
      var lead := "Freddie Mac Bulletin " + u.updateNumber + ": ";
      && |u.title| == Min(TitleLimit, |title|) && u.title == title[..|u.title|]
      && |u.summary| == |lead| + |title| && u.summary[..|lead|] == lead && u.summary[|lead|..] == title
  {
    var u := ParseBulletinElement(e, today, strptime).value;
    var title := CleanBulletinTitle(FullTitle(e, u.updateNumber));
    var lead := "Freddie Mac Bulletin " + u.updateNumber + ": ";
    assert u.summary == lead + title;
  }

  /**
   * The keyword `ami` is matched inside words: any title with "family" in
   * it, such as one naming the Single-Family guide, points to section 4501.5.
   */
  lemma FamilyPointsToHomePossible(title: string)
    requires Contains(Lower(title), "family")
    ensures "4501.5" in AffectedSections(SectionKeywords, title)
  {
    var s := Lower(title);
    var i := Find(s, "family");
    assert s[i + 1..][..3] == s[i..][..6][1..4];
    ContainsAt(s, "ami", i + 1);
    assert SectionKeywords[9] == ("ami", ["4501.5"]);
    assert Affects(SectionKeywords, s, "4501.5");
  }

  /** The element parser a run uses, with its clock and date reader. */
  function BulletinParser(today: Date, strptime: Strptime): Element -> Option<Update> {
    e => ParseBulletinElement(e, today, strptime)
  }

  /** `_get_mock_updates`. */
  const MockUpdates: seq<Update> := [
    Update("bulletin", "2025-16", "Home Possible DTI Flexibility",
      Changes.Date(2025, 1, 8), Some(Changes.Date(2025, 2, 15)),
      Some("https://guide.freddiemac.com/app/guide/bulletin/2025-16"),
      "Freddie Mac is updating the maximum DTI ratio for Home Possible loans to allow greater flexibility with compensating factors.",
      {"4501.5", "4501.9"}),
    Update("guide_update", "2025-01", "Updated Property Eligibility for Home Possible",
      Changes.Date(2024, 12, 20), Some(Changes.Date(2025, 1, 15)),
      Some("https://guide.freddiemac.com/app/guide/section/4501.5"),
      "Clarifies property eligibility requirements for Home Possible, including updated guidance on manufactured housing and condos.",
      {"4501.5", "5601.1"}),
    Update("bulletin", "2025-04", "2025 AMI Limits Update",
      Changes.Date(2025, 1, 5), Some(Changes.Date(2025, 1, 1)),
      Some("https://guide.freddiemac.com/app/guide/bulletin/2025-04"),
      "Updates to Area Median Income limits for Home Possible eligibility based on latest FHFA data.",
      {"4501.5"})
  ]

  /**
   * `fetch_updates`: the bulletins of the page's first twenty elements, or
   * the demo bulletins when the page could not be fetched. `page` is the
   * selected elements, or the error the request raised.
   */
  method FetchUpdates(page: Result<seq<Element>>, today: Date, strptime: Strptime) returns (updates: seq<Update>)
    ensures page.Err? ==> updates == MockUpdates
    ensures page.Ok? ==> updates == ParsedAll(page.value[..Min(ElementLimit, |page.value|)], BulletinParser(today, strptime))
    ensures page.Ok? ==> |updates| <= ElementLimit
  {
    match page {
      case Err(_) =>
        updates := MockUpdates;
      case Ok(els) =>
        updates := CollectUpdates(els, BulletinParser(today, strptime));
    }
  }
}
