/**
 * The policy-update endpoints: the listing filtered by GSE, newest first
 * and paginated, the lookup by id with its 404, and the code rendered for
 * an update in one of four formats. The query-parameter checks FastAPI
 * applies before the handler runs answer 422.
 */
module Changes {
  import opened Wrappers
  import opened Strings
  import opened JsonValue
  import opened Sorting

  type Month = m: int | 1 <= m <= 12 witness 1
  type Day = d: int | 1 <= d <= 31 witness 1
  type Year = y: int | 1 <= y <= 9999 witness 1

  /** A `datetime.date`. */
  datatype Date = Date(year: Year, month: Month, day: Day)

  datatype Gse = FannieMae | FreddieMac

  datatype UpdateType = LenderLetter | Bulletin | GuideUpdate

  /** `PolicyUpdate`. */
  datatype PolicyUpdate = PolicyUpdate(
    id: string, gse: Gse, updateType: UpdateType, updateNumber: string, title: string,
    publishDate: Date, effectiveDate: Option<Date>, summary: string, affectedSections: seq<string>,
    impactAnalysis: Option<string>, codeUpdate: Option<string>)

  /** `PolicyUpdatesResponse`. */
  datatype Listing = Listing(updates: seq<PolicyUpdate>, total: int)

  datatype CodeFormat = PythonCode | TypeScriptCode | YamlCode | JsonCode

  /** `CodeDiffResponse`. */
  datatype CodeDiff = CodeDiff(code: string, format: CodeFormat)

  /** Python compares dates field by field. */
  predicate DateBefore(a: Date, b: Date) {
    a.year < b.year || (a.year == b.year && (a.month < b.month || (a.month == b.month && a.day < b.day)))
  }

  /** A number that orders dates as Python does. */
  function DateKey(d: Date): int {
    d.year * 10000 + d.month * 100 + d.day
  }

  lemma DateKeyOrder(a: Date, b: Date)
    ensures DateBefore(a, b) <==> DateKey(a) < DateKey(b)
    ensures DateKey(a) == DateKey(b) <==> a == b
  {
  }

  /** The sort key of `sorted(..., key=publish_date, reverse=True)`: a stable sort on the negated date. */
  function NewestFirst(u: PolicyUpdate): real {
    -(DateKey(u.publishDate) as real)
  }

  /** The query value of `gse`, checked against its literal type. */
  function GseParam(s: string): Option<Gse> {
    if s == "fannie_mae" then Some(FannieMae) else if s == "freddie_mac" then Some(FreddieMac) else None
  }

  /** `[u for u in updates if u.gse == gse]`. */
  function OfGse(updates: seq<PolicyUpdate>, g: Gse): (r: seq<PolicyUpdate>)
    ensures |r| <= |updates|
  {
    if |updates| == 0 then []
    else OfGse(updates[..|updates| - 1], g) + (if updates[|updates| - 1].gse == g then [updates[|updates| - 1]] else [])
  }

  lemma {:induction false} OfGseMembers(updates: seq<PolicyUpdate>, g: Gse)
    ensures forall u :: u in OfGse(updates, g) <==> u in updates && u.gse == g
  {
    if |updates| > 0 {
      OfGseMembers(updates[..|updates| - 1], g);
      assert updates == updates[..|updates| - 1] + [updates[|updates| - 1]];
    }
  }

  /** `s[lo:hi]` for `0 <= lo`, with Python's clamping of both ends. */
  function Slice<T>(s: seq<T>, lo: nat, hi: nat): (r: seq<T>)
    ensures |r| == if lo >= |s| || hi <= lo then 0 else (if hi <= |s| then hi else |s|) - lo
  {
    var h := if hi <= |s| then hi else |s|;
    if lo >= h then [] else s[lo..h]
  }

  /** The updates a listing draws from: all of them, or those of one GSE. */
  function Filtered(updates: seq<PolicyUpdate>, gse: Option<Gse>): seq<PolicyUpdate> {
    if gse.Some? then OfGse(updates, gse.value) else updates
  }

  /**
   * `list_changes`: a GSE outside the literal, a limit outside [1, 100] or a
   * negative offset is refused with 422; otherwise the updates of that GSE,
   * newest first, from `offset`, at most `limit` of them, with the count
   * before pagination.
   */
  function ListChanges(updates: seq<PolicyUpdate>, gse: Option<string>, limit: int, offset: int): (r: Result<Listing>)
    ensures r.Err? <==> (gse.Some? && GseParam(gse.value).None?) || !(1 <= limit <= 100) || offset < 0
    ensures r.Err? ==> r.error == HttpException(422)
  {
    if (gse.Some? && GseParam(gse.value).None?) || !(1 <= limit <= 100) || offset < 0 then Err(HttpException(422))
    else
      var sorted := SortBy(Filtered(updates, if gse.Some? then GseParam(gse.value) else None), NewestFirst);
      Ok(Listing(Slice(sorted, offset, offset + limit), |sorted|))
  }

  /**
   * A listing holds only updates of the GSE asked for, newest first; its
   * total is the number of matching updates, whatever the page; and the
   * page holds `max(0, min(limit, total - offset))` of them.
   */
  lemma ListChangesSpec(updates: seq<PolicyUpdate>, gse: Option<string>, limit: int, offset: int)
    requires ListChanges(updates, gse, limit, offset).Ok?
    ensures ListingMeets(ListChanges(updates, gse, limit, offset).value, updates,
      if gse.Some? then GseParam(gse.value) else None, limit, offset)
  {
    var g := if gse.Some? then GseParam(gse.value) else None;
    ListingOf(updates, gse, limit, offset);
    PageMeets(updates, g, limit, offset);
  }

  /**
   * `l` holds only stored updates of GSE `g` (when there is one), newest
   * first; its total is the number of matching updates; and it holds
   * `max(0, min(limit, total - offset))` of them.
   */
  predicate ListingMeets(l: Listing, updates: seq<PolicyUpdate>, g: Option<Gse>, limit: int, offset: int) {
    && FromStore(l.updates, updates, g)
    && NewestFirstOrder(l.updates)
    && l.total == |Filtered(updates, g)|
    && |l.updates| == if offset >= l.total then 0 else (if limit <= l.total - offset then limit else l.total - offset)
  }

  /** The page the listing cuts from the sorted matches meets the listing's promise. */
  lemma PageMeets(updates: seq<PolicyUpdate>, g: Option<Gse>, limit: int, offset: int)
    requires offset >= 0 && limit >= 1
    ensures var sorted := SortBy(Filtered(updates, g), NewestFirst);
      ListingMeets(Listing(Slice(sorted, offset, offset + limit), |sorted|), updates, g, limit, offset)
  {
    FilteredMembers(updates, g);
    SortedPageMeets(SortBy(Filtered(updates, g), NewestFirst), updates, g, limit, offset);
  }

  /** A page of any newest-first list of the matching updates meets the listing's promise. */
  lemma SortedPageMeets(sorted: seq<PolicyUpdate>, updates: seq<PolicyUpdate>, g: Option<Gse>, limit: int, offset: int)
    requires offset >= 0 && limit >= 1
    requires |sorted| == |Filtered(updates, g)| && SortedBy(sorted, NewestFirst)
    requires forall u :: u in multiset(sorted) ==> u in updates && (g.Some? ==> u.gse == g.value)
    ensures ListingMeets(Listing(Slice(sorted, offset, offset + limit), |sorted|), updates, g, limit, offset)
  {
    PageIn(sorted, offset, offset + limit, updates, g);
    PageNewestFirst(sorted, offset, offset + limit);
  }

  /** An accepted listing is a page of the sorted matches, with their number. */
  lemma ListingOf(updates: seq<PolicyUpdate>, gse: Option<string>, limit: int, offset: int)
    requires ListChanges(updates, gse, limit, offset).Ok?
    ensures var g := if gse.Some? then GseParam(gse.value) else None;
      var sorted := SortBy(Filtered(updates, g), NewestFirst);
      && offset >= 0 && limit >= 1
      && ListChanges(updates, gse, limit, offset).value == Listing(Slice(sorted, offset, offset + limit), |sorted|)
      && |sorted| == |Filtered(updates, g)|
  {
  }

  /** Every update of `page` is stored, and of GSE `g` when there is one. */
  predicate FromStore(page: seq<PolicyUpdate>, updates: seq<PolicyUpdate>, g: Option<Gse>) {
    forall u :: u in page ==> u in updates && (g.Some? ==> u.gse == g.value)
  }

  /** No update of `page` was published before one after it. */
  predicate NewestFirstOrder(page: seq<PolicyUpdate>) {
    forall i, j :: 0 <= i < j < |page| ==> !DateBefore(page[i].publishDate, page[j].publishDate)
  }

  /** What the filter keeps: stored updates, of the GSE asked for when one is. */
  lemma FilteredMembers(updates: seq<PolicyUpdate>, g: Option<Gse>)
    ensures forall u :: u in multiset(SortBy(Filtered(updates, g), NewestFirst)) ==> u in updates && (g.Some? ==> u.gse == g.value)
  {
    if g.Some? {
      OfGseMembers(updates, g.value);
    }
  }

  /** A page holds elements of the list it is cut from. */
  lemma PageIn(s: seq<PolicyUpdate>, lo: nat, hi: nat, updates: seq<PolicyUpdate>, g: Option<Gse>)
    requires forall u :: u in multiset(s) ==> u in updates && (g.Some? ==> u.gse == g.value)
    ensures FromStore(Slice(s, lo, hi), updates, g)
  {
    forall u | u in Slice(s, lo, hi) ensures u in updates && (g.Some? ==> u.gse == g.value) {
      assert u in multiset(s);
    }
  }

  /** A page of a newest-first list is newest first. */
  lemma PageNewestFirst(s: seq<PolicyUpdate>, lo: nat, hi: nat)
    requires SortedBy(s, NewestFirst)
    ensures NewestFirstOrder(Slice(s, lo, hi))
  {
    var p := Slice(s, lo, hi);
    forall i, j | 0 <= i < j < |p| ensures !DateBefore(p[i].publishDate, p[j].publishDate) {
      assert p[i] == s[lo + i] && p[j] == s[lo + j];
      DateKeyOrder(p[i].publishDate, p[j].publishDate);
    }
  }

  /** With the first page large enough, the listing holds every matching update, each as often as it is stored. */
  lemma ListChangesComplete(updates: seq<PolicyUpdate>, gse: Option<string>, limit: int)
    requires ListChanges(updates, gse, limit, 0).Ok? && limit >= ListChanges(updates, gse, limit, 0).value.total
    ensures multiset(ListChanges(updates, gse, limit, 0).value.updates)
         == multiset(Filtered(updates, if gse.Some? then GseParam(gse.value) else None))
  {
    var sorted := SortBy(Filtered(updates, if gse.Some? then GseParam(gse.value) else None), NewestFirst);
    assert sorted[0..|sorted|] == sorted;
  }

  /** `get_change` and the lookup of `get_change_code`: the first update with that id, or 404. */
  function FindUpdate(updates: seq<PolicyUpdate>, id: string): (r: Result<PolicyUpdate>)
    ensures r.Err? <==> forall u :: u in updates ==> u.id != id
    ensures r.Err? ==> r.error == HttpException(404)
    ensures r.Ok? ==> exists i :: 0 <= i < |updates| && updates[i] == r.value && r.value.id == id
                        && forall j :: 0 <= j < i ==> updates[j].id != id
  {
    if |updates| == 0 then Err(HttpException(404))
    else if updates[0].id == id then Ok(updates[0])
    else
      var r := FindUpdate(updates[1..], id);
      if r.Ok? then
        var i :| 0 <= i < |updates[1..]| && updates[1..][i] == r.value && r.value.id == id
                 && forall j :: 0 <= j < i ==> updates[1..][j].id != id;
        assert updates[i + 1] == r.value;
        r
      else r
  }

  /** `str(date)`: ISO `YYYY-MM-DD`, or `None` when there is no date. */
  function DateText(d: Option<Date>): string {
    match d
    case None => "None"
    case Some(d) => ZFill(NatToString(d.year), 4) + "-" + ZFill(NatToString(d.month), 2) + "-" + ZFill(NatToString(d.day), 2)
  }

  /** The `format` query value, checked against its literal type. */
  function FormatParam(s: string): Option<CodeFormat> {
    if s == "python" then Some(PythonCode)
    else if s == "typescript" then Some(TypeScriptCode)
    else if s == "yaml" then Some(YamlCode)
    else if s == "json" then Some(JsonCode)
    else None
  }

  /** The comment template shared by the Python and TypeScript renderings, with its comment marker. */
  function CommentTemplate(u: PolicyUpdate, marker: string): (r: string)
    ensures StartsWith(r, marker + " Generated code for " + u.updateNumber + "\n")
  {
    var head := marker + " Generated code for " + u.updateNumber + "\n";
    StartsWithConcat(head, CommentBody(u, marker));
    head + CommentBody(u, marker)
  }

  function CommentBody(u: PolicyUpdate, marker: string): string {
    marker + " " + u.title + "\n"
      + marker + " Effective: " + DateText(u.effectiveDate) + "\n\n"
      + marker + " TODO: Implement rules changes based on:\n"
      + marker + " " + Take(u.summary, 200) + "...\n\n"
      + marker + " Affected sections: " + Join(u.affectedSections, ", ") + "\n"
  }

  /** `_generate_python_code`: the stored code when there is some, else the template. */
  function PythonText(u: PolicyUpdate): (r: string)
    ensures u.codeUpdate.Some? && u.codeUpdate.value != "" ==> r == u.codeUpdate.value
    ensures (u.codeUpdate.None? || u.codeUpdate.value == "") ==> StartsWith(r, "#" + " Generated code for " + u.updateNumber + "\n")
  {
    if u.codeUpdate.Some? && u.codeUpdate.value != "" then u.codeUpdate.value else CommentTemplate(u, "#")
  }

  /** `_generate_typescript_code`: always the template. */
  function TypeScriptText(u: PolicyUpdate): (r: string)
    ensures StartsWith(r, "//" + " Generated code for " + u.updateNumber + "\n")
  {
    CommentTemplate(u, "//")
  }

  /** `_generate_yaml_code`. */
  function YamlText(u: PolicyUpdate): (r: string)
    ensures StartsWith(r, "# Generated rules for " + u.updateNumber + "\n")
  {
    var head := "# Generated rules for " + u.updateNumber + "\n";
    StartsWithConcat(head, YamlBody(u));
    head + YamlBody(u)
  }

  function YamlBody(u: PolicyUpdate): string {
    "# " + u.title + "\n\n"
      + "update:\n"
      + "  number: \"" + u.updateNumber + "\"\n"
      + "  effective_date: \"" + DateText(u.effectiveDate) + "\"\n"
      + "  affected_sections:\n"
      + Join(seq(|u.affectedSections|, i requires 0 <= i < |u.affectedSections| => "    - \"" + u.affectedSections[i] + "\""), "\n")
      + "\n\n# TODO: Add rule definitions\n"
  }

  /** The object `_generate_json_code` hands to `json.dumps`. */
  function JsonDocument(u: PolicyUpdate): (j: Json)
    ensures j.JObj? && Lookup(j.fields, "rules") == Some(JObj([]))
    ensures Lookup(j.fields, "update_number") == Some(JStr(u.updateNumber))
  {
    var d := [("update_number", JStr(u.updateNumber)),
              ("effective_date", JStr(DateText(u.effectiveDate))),
              ("affected_sections", JArr(seq(|u.affectedSections|, i requires 0 <= i < |u.affectedSections| => JStr(u.affectedSections[i])))),
              ("rules", JObj([]))];
    assert "rules"[0] == 'r' && "effective_date"[0] == 'e' && "affected_sections"[0] == 'a';
    assert d[1..][1..][1..] == [("rules", JObj([]))];
    assert Lookup(d[1..][1..], "rules") == Lookup(d[1..][1..][1..], "rules");
    assert Lookup(d[1..], "rules") == Lookup(d[1..][1..], "rules");
    JObj(d)
  }

  /**
   * `get_change_code`: a format outside the literal is refused with 422, an
   * unknown id with 404; otherwise the rendering of the first update with
   * that id in the format asked for.
   */
  function GetChangeCode(updates: seq<PolicyUpdate>, id: string, format: string, dumps: Json -> string): (r: Result<CodeDiff>)
    ensures FormatParam(format).None? ==> r == Err(HttpException(422))
    ensures FormatParam(format).Some? ==> (r.Err? <==> forall u :: u in updates ==> u.id != id)
    ensures r.Ok? ==> FindUpdate(updates, id).Ok? && r.value.format == FormatParam(format).value
    ensures r.Ok? ==> var u := FindUpdate(updates, id).value;
      r.value.code == match r.value.format
        case PythonCode => PythonText(u)
        case TypeScriptCode => TypeScriptText(u)
        case YamlCode => YamlText(u)
        case JsonCode => dumps(JsonDocument(u))
  {
    match FormatParam(format)
    case None => Err(HttpException(422))
    case Some(f) =>
      match FindUpdate(updates, id)
      case Err(e) => Err(e)
      case Ok(u) =>
        var code := match f
          case PythonCode => PythonText(u)
          case TypeScriptCode => TypeScriptText(u)
          case YamlCode => YamlText(u)
          case JsonCode => dumps(JsonDocument(u));
        Ok(CodeDiff(code, f))
  }

  /** The updates the router serves. */
  const MockUpdates: seq<PolicyUpdate> := [
    PolicyUpdate("ll-2025-04", FannieMae, LenderLetter, "LL-2025-04", "Updates to HomeReady Income Limits",
      Date(2025, 1, 15), Some(Date(2025, 3, 1)),
      "This lender letter announces updates to HomeReady income limits based on the latest Area Median Income (AMI) data from FHFA. Income limits are increased in most areas to reflect rising median incomes.",
      ["B5-6-01", "B5-6-02"],
      Some("Income limits increased by approximately 5% in most areas. This expands eligibility for HomeReady to more borrowers."),
      None),
    PolicyUpdate("ll-2025-03", FannieMae, LenderLetter, "LL-2025-03", "2025 Conforming Loan Limits",
      Date(2025, 1, 10), Some(Date(2025, 1, 1)),
      "Announces the 2025 conforming loan limits. The baseline limit for single-family properties increased to $806,500. High-cost area limits are up to $1,209,750.",
      ["B2-1-01"],
      Some("Higher loan limits allow more borrowers to access conforming loans with better rates."),
      Some("# Update loan limits\nMAX_CONFORMING_LOAN = 806500\nMAX_HIGH_COST_LOAN = 1209750")),
    PolicyUpdate("bulletin-2025-16", FreddieMac, Bulletin, "2025-16", "Home Possible DTI Flexibility",
      Date(2025, 1, 8), Some(Date(2025, 2, 15)),
      "Freddie Mac is updating the maximum DTI ratio for Home Possible loans to allow greater flexibility. Loans with strong compensating factors may exceed the standard 45% DTI limit.",
      ["4501.5", "4501.9"],
      Some("This change could qualify more borrowers for Home Possible who have higher DTI but other strong credit factors."),
      None),
    PolicyUpdate("guide-update-2025-01", FreddieMac, GuideUpdate, "2025-01", "Updated Property Eligibility for Home Possible",
      Date(2024, 12, 20), Some(Date(2025, 1, 15)),
      "Clarifies property eligibility requirements for Home Possible, including updated guidance on manufactured housing and condos.",
      ["4501.5", "5601.1"],
      Some("Expanded eligibility for manufactured housing may help more affordable housing options qualify."),
      None),
    PolicyUpdate("ll-2024-21", FannieMae, LenderLetter, "LL-2024-21", "HomeReady Homeownership Education Updates",
      Date(2024, 11, 15), Some(Date(2025, 1, 1)),
      "Updates to homeownership education requirements for HomeReady. Clarifies when education is required and acceptable providers.",
      ["B5-6-01"],
      Some("Provides clearer guidance on education requirements, which may streamline the qualification process."),
      None)
  ]
}
