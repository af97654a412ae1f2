/**
 * The structure analysis run over a guide PDF before it is parsed: the
 * text of a range of pages, the section references found in it (Selling
 * Guide ids such as `B5-6-01`, Seller/Servicer Guide ids such as
 * `4501.5`), and the sorted list of distinct ids. A PDF is the sequence of
 * its pages' extracted texts, the empty string standing for a page with no
 * text; opening the PDF and extracting the text are not part of this model.
 * Regular-expression `\d` is an ASCII digit and `\w` an ASCII letter, digit
 * or underscore.
 */
module GuideAnalysis {
  import opened Wrappers
  import opened Strings
  import opened GuideSections
  import FannieParser
  import FreddieParser
  import Sorting

  /** `\b` before a match whose first character is a word character. */
  predicate BoundaryBefore(text: string, p: nat)
    requires p <= |text|
  {
    p == 0 || !IsWordChar(text[p - 1])
  }

  /** `\b` after a match whose last character is a word character. */
  predicate BoundaryAfter(text: string, e: nat)
    requires e <= |text|
  {
    e == |text| || !IsWordChar(text[e])
  }

  // ---------------------------------------------------------------------
  // Selling Guide references: \b([A-E]\d+-\d+-\d+)\b
  // ---------------------------------------------------------------------

  /**
   * `\b([A-E]\d+-\d+-\d+)\b` tried at `p`: the reference and where it
   * ends. Every digit run is greedy, and giving a digit back never helps:
   * a hyphen or a word boundary would then be needed where a digit is.
   */
  function FannieRefAt(text: string, p: nat): (r: Option<(Header, nat)>)
    ensures r.Some? ==> r.value.0.position == p && p < r.value.1 <= |text|
  {
    match FannieSpanAt(text, p)
    case None => None
    case Some((_, _, c)) => Some((Header(text[p..c], "", p), c))
  }

  /** Where the three digit runs of a match at `p` end. */
  function FannieSpanAt(text: string, p: nat): (r: Option<(nat, nat, nat)>)
    ensures r.Some? ==> var (a, b, c) := r.value;
      FannieShape(text, p, a, b, c) && BoundaryBefore(text, p) && c <= |text| && BoundaryAfter(text, c)
  {
    if p < |text| && BoundaryBefore(text, p) && FannieParser.IsLetterAE(text[p]) then
      var a := RunEnd(text, p + 1, IsDigit);
      if a == p + 1 || a == |text| || text[a] != '-' then None
      else
        var b := RunEnd(text, a + 1, IsDigit);
        if b == a + 1 || b == |text| || text[b] != '-' then None
        else
          var c := RunEnd(text, b + 1, IsDigit);
          if c == b + 1 || !BoundaryAfter(text, c) then None
          else Some((a, b, c))
    else None
  }

  /** The pieces of a match: a letter, then three digit runs ending at `a`, `b` and `e`, hyphens between. */
  predicate FannieShape(text: string, p: nat, a: nat, b: nat, e: nat) {
    FannieParser.SpanShape(text, p, FannieParser.IdSpan(a, b, b, e))
  }

  /**
   * What is matched at `p` runs to a word boundary, is a Selling Guide
   * section id whose middle piece has no decimal part, and stands in the
   * text at `p`.
   */
  lemma FannieRefSound(text: string, p: nat)
    requires FannieRefAt(text, p).Some?
    ensures var (h, e) := FannieRefAt(text, p).value;
      e == p + |h.id| && h.id == text[p..e] && h.title == "" && FannieRefOk(text, (h.id, p)) && '.' !in h.id
  {
    var (a, b, c) := FannieSpanAt(text, p).value;
    FannieParser.SpanIsId(text, p, FannieParser.IdSpan(a, b, b, c));
    NoPointInShape(text, p, a, b, c);
  }

  /** A match has no decimal point. */
  lemma NoPointInShape(text: string, p: nat, a: nat, b: nat, c: nat)
    requires FannieShape(text, p, a, b, c)
    ensures '.' !in text[p..c]
  {
    var id := text[p..c];
    assert forall k :: 0 <= k < |id| ==> id[k] == text[p + k];
    assert forall k :: p < k < c ==> IsDigit(text[k]) || text[k] == '-';
  }

  /** Every word-bounded reference of that shape at `p` is the one matched there. */
  lemma FannieRefComplete(text: string, p: nat, a: nat, b: nat, e: nat)
    requires FannieShape(text, p, a, b, e)
    requires BoundaryBefore(text, p) && e <= |text| && BoundaryAfter(text, e)
    ensures FannieSpanAt(text, p) == Some((a, b, e))
    ensures FannieRefAt(text, p) == Some((Header(text[p..e], "", p), e))
  {
    RunEndIs(text, p + 1, IsDigit, a);
    RunEndIs(text, a + 1, IsDigit, b);
    RunEndIs(text, b + 1, IsDigit, e);
  }

  // ---------------------------------------------------------------------
  // Seller/Servicer Guide references: \b(\d{4}\.\d{1,2})\b
  // ---------------------------------------------------------------------

  /**
   * `\b(\d{4}\.\d{1,2})\b` tried at `p`. A second decimal digit is taken
   * when there is one; giving it back leaves a digit right after the
   * match, where no word boundary is.
   */
  function FreddieRefAt(text: string, p: nat): (r: Option<(Header, nat)>)
    ensures r.Some? ==> r.value.0.position == p && p < r.value.1 <= |text|
  {
    if p + 6 <= |text| && BoundaryBefore(text, p) && AllDigits(text[p..p + 4])
      && text[p + 4] == '.' && IsDigit(text[p + 5])
    then
      var e := if p + 6 < |text| && IsDigit(text[p + 6]) then p + 7 else p + 6;
      if BoundaryAfter(text, e) then Some((Header(text[p..e], "", p), e)) else None
    else None
  }

  /** A Seller/Servicer Guide id between word boundaries is in the text from `p` to `e`. */
  predicate FreddieRef(text: string, p: nat, e: nat)
    requires p <= e <= |text|
  {
    FreddieParser.IsFreddieId(text[p..e]) && BoundaryBefore(text, p) && BoundaryAfter(text, e)
  }

  /** A match at `p` ending at `e` is exactly a word-bounded Seller/Servicer Guide id in the text there. */
  lemma FreddieRefExact(text: string, p: nat, e: nat)
    requires p <= e <= |text|
    ensures FreddieRefAt(text, p) == Some((Header(text[p..e], "", p), e)) <==> FreddieRef(text, p, e)
  {
    var id := text[p..e];
    if FreddieRefAt(text, p) == Some((Header(id, "", p), e)) {
      assert id[..4] == text[p..p + 4];
      assert forall k :: 5 <= k < |id| ==> id[k] == text[p + k];
    }
    if FreddieRef(text, p, e) {
      assert text[p..p + 4] == id[..4];
      assert forall k :: 0 <= k < |id| ==> id[k] == text[p + k];
      if e == p + 6 && p + 6 < |text| {
        assert !IsWordChar(text[p + 6]);
      }
    }
  }

  /** What is matched at `p` is a word-bounded Seller/Servicer Guide id. */
  lemma FreddieRefSound(text: string, p: nat)
    requires FreddieRefAt(text, p).Some?
    ensures var (h, e) := FreddieRefAt(text, p).value;
      e == p + |h.id| && h.id == text[p..e] && h.title == "" && FreddieRefOk(text, (h.id, p))
  {
    FreddieRefExact(text, p, FreddieRefAt(text, p).value.1);
  }

  // ---------------------------------------------------------------------
  // The header finders
  // ---------------------------------------------------------------------

  /** A reference as the finders return it: the id and where it starts. */
  type Ref = (string, nat)

  function Refs(hs: seq<Header>): (r: seq<Ref>)
    ensures |r| == |hs|
    ensures forall k :: 0 <= k < |hs| ==> r[k] == (hs[k].id, hs[k].position)
  {
    seq(|hs|, k requires 0 <= k < |hs| => (hs[k].id, hs[k].position))
  }

  /** `find_section_headers_fannie`. */
  function FannieRefs(text: string): seq<Ref> {
    Refs(Scan(text, 0, FannieRefAt))
  }

  /** `find_section_headers_freddie`. */
  function FreddieRefs(text: string): seq<Ref> {
    Refs(Scan(text, 0, FreddieRefAt))
  }

  /** A reference stands in the text at its position. */
  predicate InText(text: string, r: Ref) {
    r.1 + |r.0| <= |text| && text[r.1..r.1 + |r.0|] == r.0
  }

  /** The references come out left to right. */
  predicate LeftToRight(rs: seq<Ref>) {
    forall a, b :: 0 <= a < b < |rs| ==> rs[a].1 < rs[b].1
  }

  /** A Selling Guide reference: a section id at its position, between word boundaries. */
  predicate FannieRefOk(text: string, r: Ref) {
    && InText(text, r)
    && FannieParser.IsFannieId(r.0)
    && BoundaryBefore(text, r.1)
    && BoundaryAfter(text, r.1 + |r.0|)
  }

  /** A Seller/Servicer Guide reference: a section id at its position, between word boundaries. */
  predicate FreddieRefOk(text: string, r: Ref) {
    InText(text, r) && FreddieRef(text, r.1, r.1 + |r.0|)
  }

  /** Each Selling Guide reference found is a word-bounded section id at its position, and they come out left to right. */
  lemma FannieRefsSpec(text: string)
    ensures LeftToRight(FannieRefs(text))
    ensures forall k :: 0 <= k < |FannieRefs(text)| ==> FannieRefOk(text, FannieRefs(text)[k])
  {
    var hs := Scan(text, 0, FannieRefAt);
    var rs := Refs(hs);
    assert Advances(FannieRefAt);
    ScanOrdered(text, 0, FannieRefAt);
    forall k | 0 <= k < |rs|
      ensures FannieRefOk(text, rs[k])
    {
      assert FoundBy(text, 0, FannieRefAt, hs[k]);
      FannieRefSound(text, hs[k].position);
    }
  }

  /** Each Seller/Servicer Guide reference found is a word-bounded section id at its position, and they come out left to right. */
  lemma FreddieRefsSpec(text: string)
    ensures LeftToRight(FreddieRefs(text))
    ensures forall k :: 0 <= k < |FreddieRefs(text)| ==> FreddieRefOk(text, FreddieRefs(text)[k])
  {
    var hs := Scan(text, 0, FreddieRefAt);
    var rs := Refs(hs);
    assert Advances(FreddieRefAt);
    ScanOrdered(text, 0, FreddieRefAt);
    forall k | 0 <= k < |rs|
      ensures FreddieRefOk(text, rs[k])
    {
      assert FoundBy(text, 0, FreddieRefAt, hs[k]);
      FreddieRefSound(text, hs[k].position);
    }
  }

  /** `find_section_headers_fannie`: each match of the pattern, with where it starts. */
  method FindSectionHeadersFannie(text: string) returns (matches: seq<Ref>)
    ensures matches == FannieRefs(text)
  {
    var hs := FindAll(text, FannieRefAt);
    matches := Refs(hs);
  }

  /** `find_section_headers_freddie`: each match of the pattern, with where it starts. */
  method FindSectionHeadersFreddie(text: string) returns (matches: seq<Ref>)
    ensures matches == FreddieRefs(text)
  {
    var hs := FindAll(text, FreddieRefAt);
    matches := Refs(hs);
  }

  // ---------------------------------------------------------------------
  // Page text
  // ---------------------------------------------------------------------

  /** The block written for the page at index `i`, numbered from one. */
  function PageBlock(i: int, text: string): string {
    "\n\n--- PAGE " + IntToString(i + 1) + " ---\n\n" + text
  }

  /** `pdf.pages[i]`: a negative index counts from the end; past either end is an `IndexError`. */
  function PageAt(pages: seq<string>, i: int): (r: Result<string>)
    ensures r.Ok? <==> -|pages| <= i < |pages|
  {
    if 0 <= i < |pages| then Ok(pages[i])
    else if -|pages| <= i < 0 then Ok(pages[|pages| + i])
    else Err(IndexError)
  }

  /** The blocks for the pages at indices `lo` up to `hi`, a page without text giving none. */
  function Blocks(pages: seq<string>, lo: int, hi: int): Result<seq<string>>
    decreases hi - lo
  {
    if hi <= lo then Ok([])
    else
      match Blocks(pages, lo, hi - 1)
      case Err(e) => Err(e)
      case Ok(parts) =>
        match PageAt(pages, hi - 1)
        case Err(e) => Err(e)
        case Ok(t) => Ok(if t == "" then parts else parts + [PageBlock(hi - 1, t)])
  }

  /** The pages at indices `lo` up to `hi` that have text, in order. */
  function WithText(pages: seq<string>, lo: nat, hi: nat): (r: seq<nat>)
    requires hi <= |pages|
    ensures forall k :: 0 <= k < |r| ==> lo <= r[k] < hi && pages[r[k]] != ""
    decreases hi - lo
  {
    if hi <= lo then []
    else if pages[hi - 1] == "" then WithText(pages, lo, hi - 1)
    else WithText(pages, lo, hi - 1) + [hi - 1]
  }

  /** The last page index `extract_sample` reads, plus one; never past the page count. */
  function SampleEnd(pages: seq<string>, start: int, num: int): (end: int)
    ensures end <= |pages|
    ensures end <= start + num
    ensures end == start + num || end == |pages|
  {
    if start + num < |pages| then start + num else |pages|
  }

  /** `extract_sample`: the page blocks of `range(start, end)` joined by newlines. */
  function SampleText(pages: seq<string>, start: int, num: int): Result<string> {
    match Blocks(pages, start, SampleEnd(pages, start, num))
    case Err(e) => Err(e)
    case Ok(parts) => Ok(Join(parts, "\n"))
  }

  /**
   * From a non-negative index, the blocks are those of the pages with text
   * in the range, in order, each numbered by its page.
   */
  lemma {:induction false} BlocksOfPages(pages: seq<string>, lo: nat, hi: nat)
    requires hi <= |pages|
    ensures Blocks(pages, lo, hi).Ok?
    ensures var ws := WithText(pages, lo, hi);
      Blocks(pages, lo, hi).value == seq(|ws|, k requires 0 <= k < |ws| => PageBlock(ws[k], pages[ws[k]]))
    decreases hi - lo
  {
    if hi > lo {
      BlocksOfPages(pages, lo, hi - 1);
    }
  }

  /** Only the pages in `[start, end)` are read: pages outside it may be anything. */
  lemma {:induction false} BlocksReadRange(pages: seq<string>, other: seq<string>, lo: nat, hi: nat)
    requires hi <= |pages| && hi <= |other|
    requires forall i :: lo <= i < hi ==> pages[i] == other[i]
    ensures Blocks(pages, lo, hi) == Blocks(other, lo, hi)
    decreases hi - lo
  {
    if hi > lo {
      BlocksReadRange(pages, other, lo, hi - 1);
    }
  }

  /**
   * `extract_sample` from a non-negative page: it never fails, never reads
   * a page at or past `min(start + num, page count)`, and gives one block
   * per page with text in that range.
   */
  lemma SampleReadsRange(pages: seq<string>, other: seq<string>, start: nat, num: int)
    requires |other| == |pages|
    requires forall i :: start <= i < SampleEnd(pages, start, num) ==> pages[i] == other[i]
    ensures SampleText(pages, start, num).Ok?
    ensures SampleText(pages, start, num) == SampleText(other, start, num)
  {
    var end := SampleEnd(pages, start, num);
    if end < 0 {
      assert Blocks(pages, start, end) == Ok([]) == Blocks(other, start, end);
    } else {
      BlocksOfPages(pages, start, end);
      BlocksReadRange(pages, other, start, end);
    }
  }

  /** From a negative page the indices count from the end, and one before the first page is an `IndexError`. */
  lemma {:induction false} BlocksBeforeFirst(pages: seq<string>, lo: int, hi: int)
    ensures Blocks(pages, lo, hi).Err? <==> lo < hi && (lo < -|pages| || hi > |pages|)
    decreases hi - lo
  {
    if hi > lo {
      BlocksBeforeFirst(pages, lo, hi - 1);
    }
  }

  /** `extract_sample` fails exactly when the range is not empty and starts before minus the page count. */
  lemma SampleFails(pages: seq<string>, start: int, num: int)
    ensures SampleText(pages, start, num).Err? <==> start < SampleEnd(pages, start, num) && start < -|pages|
  {
    BlocksBeforeFirst(pages, start, SampleEnd(pages, start, num));
  }

  /** `extract_sample`: the loop over `range(start_page, end_page)`. */
  method ExtractSample(pages: seq<string>, start: int, num: int) returns (r: Result<string>)
    ensures r == SampleText(pages, start, num)
  {
    var end := if start + num < |pages| then start + num else |pages|;
    var parts: seq<string> := [];
    var i := start;
    while i < end
      invariant start <= i <= end || (end < start && i == start)
      invariant Blocks(pages, start, i) == Ok(parts)
      decreases end - i
    {
      var page := PageAt(pages, i);
      if page.Err? {
        BlocksErrStays(pages, start, i + 1, end);
        return Err(page.error);
      }
      if page.value != "" {
        parts := parts + [PageBlock(i, page.value)];
      }
      i := i + 1;
    }
    if end < start {
      assert Blocks(pages, start, end) == Ok([]);
    }
    r := Ok(Join(parts, "\n"));
  }

  /** Once a page cannot be read, the blocks of any longer range fail too. */
  lemma {:induction false} BlocksErrStays(pages: seq<string>, lo: int, mid: int, hi: int)
    requires lo <= mid <= hi
    requires Blocks(pages, lo, mid).Err?
    ensures Blocks(pages, lo, hi) == Blocks(pages, lo, mid)
    decreases hi - mid
  {
    if hi > mid {
      BlocksErrStays(pages, lo, mid, hi - 1);
    }
  }

  /** `pdf.pages[:max_pages] if max_pages else pdf.pages`, with Python's slice bounds. */
  function FirstPages(pages: seq<string>, maxPages: Option<int>): (r: seq<string>)
    ensures |r| <= |pages| && r == pages[..|r|]
    ensures maxPages.None? || maxPages.value == 0 ==> r == pages
    ensures maxPages.Some? && maxPages.value > 0 ==> |r| == if maxPages.value < |pages| then maxPages.value else |pages|
  {
    match maxPages
    case None => pages
    case Some(k) =>
      if k == 0 then pages
      else if k >= |pages| then pages
      else if k > 0 then pages[..k]
      else if -k >= |pages| then []
      else pages[..|pages| + k]
  }

  /** `extract_full_text`: every page of the first pages with text, numbered from one. */
  function FullText(pages: seq<string>, maxPages: Option<int>): string {
    var first := FirstPages(pages, maxPages);
    BlocksOfPages(first, 0, |first|);
    Join(Blocks(first, 0, |first|).value, "\n")
  }

  /** The full text with a positive page limit is the sample of that many pages from the first. */
  lemma FullTextIsSample(pages: seq<string>, maxPages: Option<int>)
    requires maxPages.None? || maxPages.value >= 0
    ensures var n := if maxPages.None? || maxPages.value == 0 then |pages| else maxPages.value;
      SampleText(pages, 0, n) == Ok(FullText(pages, maxPages))
  {
    var first := FirstPages(pages, maxPages);
    var n := if maxPages.None? || maxPages.value == 0 then |pages| else maxPages.value;
    var end := SampleEnd(pages, 0, n);
    assert end == |first|;
    BlocksOfPages(first, 0, end);
    BlocksReadRange(first, pages, 0, end);
  }

  // ---------------------------------------------------------------------
  // The analysis
  // ---------------------------------------------------------------------

  /** `sorted(set(h[0] for h in headers))`. */
  function UniqueSections(refs: seq<Ref>): (r: seq<string>)
    ensures Sorting.StrictlySorted(r)
    ensures forall y :: y in r <==> exists k :: 0 <= k < |refs| && refs[k].0 == y
    ensures forall i, j :: 0 <= i < j < |r| ==> r[i] != r[j]
  {
    var ids := seq(|refs|, k requires 0 <= k < |refs| => refs[k].0);
    assert forall k :: 0 <= k < |refs| ==> ids[k] == refs[k].0;
    Sorting.SortedSetDistinct(ids);
    Sorting.SortedSet(ids)
  }

  /** What `analyze_pdf_structure` reports: the page count, the ids in the sample, and the sample's length. */
  datatype Analysis = Analysis(pages: nat, sampleSections: seq<string>, sampleTextLength: nat)

  /** The sample read for the analysis: the first fifty pages. */
  const SamplePages: nat := 50

  /** `analyze_pdf_structure`. */
  method AnalyzePdfStructure(pages: seq<string>, isFannie: bool) returns (a: Analysis)
    ensures a.pages == |pages|
    ensures SampleText(pages, 0, SamplePages).Ok?
    ensures var sample := SampleText(pages, 0, SamplePages).value;
      && a.sampleTextLength == |sample|
      && a.sampleSections == UniqueSections(if isFannie then FannieRefs(sample) else FreddieRefs(sample))
  {
    SampleReadsRange(pages, pages, 0, SamplePages);
    var r := ExtractSample(pages, 0, SamplePages);
    var sample := r.value;
    var headers;
    if isFannie {
      headers := FindSectionHeadersFannie(sample);
    } else {
      headers := FindSectionHeadersFreddie(sample);
    }
    a := Analysis(|pages|, UniqueSections(headers), |sample|);
  }
}
