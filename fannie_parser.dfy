/**
 * The Fannie Mae Selling Guide parser: the headers found in the text of the
 * guide, the section each one starts, the longest text kept for an id that
 * occurs more than once, and the file each section is saved as. Reading
 * the PDF, clearing the output directory and the metadata file are not
 * part of this model.
 */
module FannieParser {
  import opened Wrappers
  import opened Strings
  import opened GuideSections

  /** The `Source` line written into each saved section: the agency, then the guide. */
  const SourceName := "Fannie Mae" + " Selling Guide (PDF)"

  /** `[,:\s]`, the separator between an id and its title. */
  predicate IsSeparator(c: char) { c == ',' || c == ':' || IsSpace(c) }

  predicate IsLetterAE(c: char) { 'A' <= c <= 'E' }

  /** The positions in `[lo, hi)`, at least one, are all digits. */
  predicate DigitsIn(text: string, lo: nat, hi: nat) {
    lo < hi <= |text| && forall k :: lo <= k < hi ==> IsDigit(text[k])
  }

  /** Where the pieces of an id starting at `j` end: its hyphens at `a` and `c`, a decimal point at `b` unless `b == c`, the end at `e`. */
  datatype IdSpan = IdSpan(a: nat, b: nat, c: nat, e: nat)

  predicate SpanShape(text: string, j: nat, sp: IdSpan) {
    && j < |text| && IsLetterAE(text[j])
    && DigitsIn(text, j + 1, sp.a) && sp.a < |text| && text[sp.a] == '-'
    && DigitsIn(text, sp.a + 1, sp.b)
    && (sp.c == sp.b || (sp.b < |text| && text[sp.b] == '.' && DigitsIn(text, sp.b + 1, sp.c)))
    && sp.c < |text| && text[sp.c] == '-'
    && DigitsIn(text, sp.c + 1, sp.e)
  }

  /**
   * `[A-E]\d+-\d+(?:\.\d+)?-\d+` tried at `j`. Every digit run is as long
   * as it can be: giving digits back only puts a digit where a `-` or `.`
   * is needed. The decimal part is tried first, and when it matches but no
   * `-` follows, skipping it cannot help either.
   */
  function IdSpanAt(text: string, j: nat): (r: Option<IdSpan>)
    ensures r.Some? ==> SpanShape(text, j, r.value)
  {
    if j < |text| && IsLetterAE(text[j]) then
      var a := RunEnd(text, j + 1, IsDigit);
      if a == j + 1 || a == |text| || text[a] != '-' then None
      else
        var b := RunEnd(text, a + 1, IsDigit);
        if b == a + 1 then None
        else
          var c := if b < |text| && text[b] == '.' && RunEnd(text, b + 1, IsDigit) > b + 1 then RunEnd(text, b + 1, IsDigit) else b;
          if c == |text| || text[c] != '-' then None
          else
            var e := RunEnd(text, c + 1, IsDigit);
            if e == c + 1 then None else Some(IdSpan(a, b, c, e))
    else None
  }

  /** Where the id starting at `j` ends, or -1. */
  function IdEnd(text: string, j: nat): (r: int)
    ensures r == -1 || j < r <= |text|
  {
    match IdSpanAt(text, j)
    case None => -1
    case Some(sp) => sp.e
  }

  predicate Digits(s: string) { |s| > 0 && AllDigits(s) }

  /** Digits, a point, digits. */
  predicate Dotted(s: string) {
    exists k :: 0 < k < |s| - 1 && Digits(s[..k]) && s[k] == '.' && Digits(s[k + 1..])
  }

  /**
   * A Selling Guide section id, read off its pieces: a letter from A to E,
   * then three pieces between hyphens, each digits, the middle one possibly
   * with a decimal part.
   */
  predicate IsFannieId(s: string) {
    && |s| > 0 && IsLetterAE(s[0])
    && var parts := Split(s[1..], '-');
    && |parts| == 3 && Digits(parts[0]) && Digits(parts[2])
    && (Digits(parts[1]) || Dotted(parts[1]))
  }

  lemma SplitNone(s: string, sep: char)
    requires sep !in s
    ensures Split(s, sep) == [s]
  {
  }

  /** A string of three pieces without hyphens, joined by hyphens, splits back into them. */
  lemma SplitThree(x: string, y: string, z: string)
    requires '-' !in x && '-' !in y && '-' !in z
    ensures Split(x + "-" + y + "-" + z, '-') == [x, y, z]
  {
    SplitNone(x, '-');
    SplitSnoc(x, y, '-');
    assert x + "-" + y + "-" + z == (x + ['-'] + y) + ['-'] + z;
    SplitSnoc(x + ['-'] + y, z, '-');
  }

  lemma DigitsSlice(text: string, lo: nat, hi: nat)
    requires DigitsIn(text, lo, hi)
    ensures Digits(text[lo..hi]) && '-' !in text[lo..hi] && '.' !in text[lo..hi]
  {
    assert forall k :: 0 <= k < hi - lo ==> text[lo..hi][k] == text[lo + k];
  }

  /** A letter and three digit pieces, the middle one possibly with a decimal part, joined by hyphens, make an id. */
  lemma IdFromPieces(s: string, x: string, y: string, z: string)
    requires |s| > 0 && IsLetterAE(s[0]) && s[1..] == x + "-" + y + "-" + z
    requires Digits(x) && Digits(z) && '-' !in x && '-' !in y && '-' !in z
    requires Digits(y) || Dotted(y)
    ensures IsFannieId(s)
  {
    SplitThree(x, y, z);
  }

  /** Digits, a decimal point and digits make a dotted piece. */
  lemma DottedPiece(u: string, v: string)
    requires Digits(u) && Digits(v) && '-' !in u && '-' !in v
    ensures var y := u + "." + v;
      '-' !in y && Dotted(y)
  {
    var y := u + "." + v;
    assert y[..|u|] == u && y[|u| + 1..] == v;
  }

  lemma SliceAround(text: string, lo: nat, k: nat, hi: nat)
    requires lo <= k < hi <= |text|
    ensures text[lo..hi] == text[lo..k] + [text[k]] + text[k + 1..hi]
  {
    assert text[lo..hi] == text[lo..k] + text[k..hi];
    assert text[k..hi] == [text[k]] + text[k + 1..hi];
  }

  /** An id cut at its two hyphens. */
  lemma CutAtHyphens(text: string, j: nat, a: nat, c: nat, e: nat)
    requires j < a < c < e <= |text| && text[a] == '-' && text[c] == '-'
    ensures text[j..e][1..] == text[j + 1..a] + "-" + text[a + 1..c] + "-" + text[c + 1..e]
  {
    SliceAround(text, j, c, e);
    SliceAround(text, j, a, c);
    assert text[j..e][1..] == text[j + 1..e];
    SliceAround(text, j + 1, c, e);
    SliceAround(text, j + 1, a, c);
  }

  /** The middle piece of a recognised id is digits, possibly with a decimal part. */
  lemma MiddlePiece(text: string, sp: IdSpan)
    requires DigitsIn(text, sp.a + 1, sp.b)
    requires sp.c == sp.b || (sp.b < |text| && text[sp.b] == '.' && DigitsIn(text, sp.b + 1, sp.c))
    ensures var y := text[sp.a + 1..sp.c];
      '-' !in y && (Digits(y) || Dotted(y))
  {
    DigitsSlice(text, sp.a + 1, sp.b);
    if sp.c != sp.b {
      DigitsSlice(text, sp.b + 1, sp.c);
      SliceAround(text, sp.a + 1, sp.b, sp.c);
      DottedPiece(text[sp.a + 1..sp.b], text[sp.b + 1..sp.c]);
    }
  }

  /** The pieces of a recognised id make a section id. */
  lemma SpanIsId(text: string, j: nat, sp: IdSpan)
    requires SpanShape(text, j, sp)
    ensures IsFannieId(text[j..sp.e])
  {
    var x, y, z := text[j + 1..sp.a], text[sp.a + 1..sp.c], text[sp.c + 1..sp.e];
    DigitsSlice(text, j + 1, sp.a);
    DigitsSlice(text, sp.c + 1, sp.e);
    MiddlePiece(text, sp);
    CutAtHyphens(text, j, sp.a, sp.c, sp.e);
    var id := text[j..sp.e];
    assert id[1..] == x + "-" + y + "-" + z;
    IdFromPieces(id, x, y, z);
  }

  /** What `IdEnd` recognises is a section id. */
  lemma IdEndShape(text: string, j: nat)
    requires IdEnd(text, j) >= 0
    ensures IsFannieId(text[j..IdEnd(text, j)])
  {
    SpanIsId(text, j, IdSpanAt(text, j).value);
  }

  /** `\s*\(\d{2}/\d{2}/\d{4}\)\s*$` tried at `k`: spaces, a date in parentheses, then only spaces. */
  predicate DateTailAt(t: string, k: nat)
    requires k <= |t|
  {
    var j := RunEnd(t, k, IsSpace);
    && j + 12 <= |t| && t[j] == '(' && t[j + 3] == '/' && t[j + 6] == '/' && t[j + 11] == ')'
    && AllDigits(t[j + 1..j + 3]) && AllDigits(t[j + 4..j + 6]) && AllDigits(t[j + 7..j + 11])
    && forall i :: j + 12 <= i < |t| ==> IsSpace(t[i])
  }

  /** The title with a trailing date removed: the text before the leftmost place the date pattern matches. */
  function StripDateFrom(t: string, k: nat): string
    requires k <= |t|
    decreases |t| - k
  {
    if DateTailAt(t, k) then t[..k] else if k == |t| then t else StripDateFrom(t, k + 1)
  }

  function StripDate(t: string): string {
    StripDateFrom(t, 0)
  }

  /** A title without a parenthesis has no date to remove. */
  lemma {:induction false} StripDateKeeps(t: string, k: nat)
    requires k <= |t| && '(' !in t
    ensures StripDateFrom(t, k) == t
    decreases |t| - k
  {
    var j := RunEnd(t, k, IsSpace);
    assert j < |t| ==> t[j] in t;
    if k < |t| {
      StripDateKeeps(t, k + 1);
    }
  }

  /**
   * `\n([A-E]\d+-\d+(?:\.\d+)?-\d+)[,:\s]+\s*([^\n\(]+)` tried at `i`:
   * where the id ends, where the title group starts and where it ends. The
   * separators run as far as they can, and are given back only when no
   * title character follows them.
   */
  function MatchSpan(text: string, i: nat): (r: Option<(nat, nat, nat)>)
    ensures r.Some? ==> var (d, t, e) := r.value;
      && i < |text| && text[i] == '\n' && d == IdEnd(text, i + 1) && i + 1 < d
      && d < t < |text| && TitleChar(text[t]) && e == TitleEnd(text, t)
  {
    if i < |text| && text[i] == '\n' then
      var d := IdEnd(text, i + 1);
      if d < 0 then None
      else
        var q := RunEnd(text, d, IsSeparator);
        if q == d then None
        else
          var t := TitleStart(text, d + 1, q);
          if t < 0 then None
          else Some((d, t, TitleEnd(text, t)))
    else None
  }

  /** The section id `id` follows a newline at `p` in `text`. */
  predicate IdAt(text: string, p: nat, id: string) {
    && p < |text| && text[p] == '\n'
    && p + 1 + |id| <= |text| && text[p + 1..p + 1 + |id|] == id
    && IsFannieId(id)
  }

  /** What a header found in `text` is: after a newline, a section id in the text, and a clean title. */
  predicate WellFormed(text: string, h: Header) {
    IdAt(text, h.position, h.id) && CleanTitle(h.title)
  }

  /** The id a match recognises after a newline is a section id. */
  lemma HeaderId(text: string, i: nat, d: nat)
    requires i < |text| && text[i] == '\n' && d == IdEnd(text, i + 1) && i + 1 < d
    ensures IdAt(text, i, text[i + 1..d])
  {
    IdEndShape(text, i + 1);
  }

  /**
   * The header for a match: the id, and the title group stripped and
   * cleaned of a trailing date. It is well formed, and the date cleanup
   * finds nothing to remove, since the title group holds no parenthesis.
   */
  function MatchAt(text: string, i: nat): (r: Option<(Header, nat)>)
    ensures r.Some? ==> r.value.0.position == i && i < r.value.1 <= |text|
    ensures r.Some? ==> WellFormed(text, r.value.0)
  {
    match MatchSpan(text, i)
    case None => None
    case Some((d, t, e)) =>
      var title := Strip(text[t..e]);
      HeaderId(text, i, d);
      TitleGroupClean(text, t);
      StripDateKeeps(title, 0);
      Some((Header(text[i + 1..d], StripDate(title), i), e))
  }

  /** `find_sections`. */
  function Sections(text: string): seq<Header> {
    Scan(text, 0, MatchAt)
  }

  /** The headers come out in strictly increasing position and each is well formed. */
  lemma SectionsOrdered(text: string)
    ensures forall a, b :: 0 <= a < b < |Sections(text)| ==> Sections(text)[a].position < Sections(text)[b].position
    ensures forall k :: 0 <= k < |Sections(text)| ==> WellFormed(text, Sections(text)[k])
  {
    assert Advances(MatchAt);
    ScanOrdered(text, 0, MatchAt);
    forall k | 0 <= k < |Sections(text)|
      ensures WellFormed(text, Sections(text)[k])
    {
      assert FoundBy(text, 0, MatchAt, Sections(text)[k]);
    }
  }

  /** `find_sections`: every match of the header pattern, left to right. */
  method FindSections(text: string) returns (sections: seq<Header>)
    ensures sections == Sections(text)
  {
    sections := FindAll(text, MatchAt);
  }

  /**
   * The dictionary after the first `n` assignments: a repeated id replaces
   * the stored section only when its content is strictly longer.
   */
  function Kept(ps: Entries, n: nat): Entries
    requires n <= |ps|
  {
    if n == 0 then []
    else
      var d := Kept(ps, n - 1);
      var (id, e) := ps[n - 1];
      match Get(d, id)
      case Some(stored) => if |e.content| <= |stored.content| then d else Put(d, id, e)
      case None => Put(d, id, e)
  }

  lemma KeptStep(ps: Entries, n: nat)
    requires n < |ps|
    ensures Kept(ps, n + 1) == if Get(Kept(ps, n), ps[n].0).Some? && |ps[n].1.content| <= |Get(Kept(ps, n), ps[n].0).value.content| then Kept(ps, n) else Put(Kept(ps, n), ps[n].0, ps[n].1)
  {
  }

  /** Assignment `j` is the first of those to `id` among the first `n` whose content is longest. */
  predicate Longest(ps: Entries, n: nat, id: string, j: nat)
    requires n <= |ps|
  {
    && j < n && ps[j].0 == id
    && (forall i :: 0 <= i < n && ps[i].0 == id ==> |ps[i].1.content| <= |ps[j].1.content|)
    && (forall i :: 0 <= i < j && ps[i].0 == id ==> |ps[i].1.content| < |ps[j].1.content|)
  }

  /** The assignment whose entry is stored for `id` after the first `n`, or -1. */
  function StoredIndex(ps: Entries, n: nat, id: string): (j: int)
    requires n <= |ps|
    ensures -1 <= j < n
  {
    if n == 0 then -1
    else
      var j := StoredIndex(ps, n - 1, id);
      if ps[n - 1].0 != id then j
      else if j < 0 || |ps[n - 1].1.content| > |ps[j].1.content| then n - 1
      else j
  }

  lemma {:induction false} KeptStored(ps: Entries, n: nat, id: string)
    requires n <= |ps|
    ensures Get(Kept(ps, n), id) == if StoredIndex(ps, n, id) < 0 then None else Some(ps[StoredIndex(ps, n, id)].1)
  {
    if n > 0 {
      KeptStored(ps, n - 1, id);
      KeptStep(ps, n - 1);
      var d := Kept(ps, n - 1);
      var (last, e) := ps[n - 1];
      PutFind(d, last, e, id);
      var j := StoredIndex(ps, n - 1, id);
      if last != id {
        assert Get(Kept(ps, n), id) == Get(d, id);
      } else if j < 0 {
        assert Get(d, id) == None;
        assert Kept(ps, n) == Put(d, id, e);
      } else if |e.content| > |ps[j].1.content| {
        assert Get(d, id) == Some(ps[j].1);
        assert Kept(ps, n) == Put(d, id, e);
      } else {
        assert Get(d, id) == Some(ps[j].1);
        assert Kept(ps, n) == d;
      }
    }
  }

  lemma {:induction false} StoredLongest(ps: Entries, n: nat, id: string)
    requires n <= |ps|
    ensures StoredIndex(ps, n, id) < 0 <==> !Occurs(ps, n, id)
    ensures StoredIndex(ps, n, id) >= 0 ==> Longest(ps, n, id, StoredIndex(ps, n, id))
  {
    if n > 0 {
      StoredLongest(ps, n - 1, id);
      var j := StoredIndex(ps, n - 1, id);
      assert Occurs(ps, n - 1, id) ==> Occurs(ps, n, id);
      if ps[n - 1].0 != id {
        assert Occurs(ps, n, id) ==> Occurs(ps, n - 1, id);
      } else {
        assert Occurs(ps, n, id);
        if j < 0 {
          assert forall i :: 0 <= i < n - 1 ==> ps[i].0 != id;
        }
      }
    }
  }

  /**
   * An id is stored exactly when some assignment is to it, and what is
   * stored is the first of its sections with the longest content.
   */
  lemma KeptLongest(ps: Entries, n: nat, id: string)
    requires n <= |ps|
    ensures Get(Kept(ps, n), id).Some? <==> Occurs(ps, n, id)
    ensures Get(Kept(ps, n), id).Some? ==> exists j: nat :: Longest(ps, n, id, j) && Get(Kept(ps, n), id).value == ps[j].1
  {
    KeptStored(ps, n, id);
    StoredLongest(ps, n, id);
  }

  /** The ids are stored in the order of their first assignment. */
  lemma {:induction false} KeptKeys(ps: Entries, n: nat)
    requires n <= |ps|
    ensures Keys(Kept(ps, n)) == FirstIds(ps, n)
  {
    if n > 0 {
      KeptKeys(ps, n - 1);
      KeptStep(ps, n - 1);
      var d := Kept(ps, n - 1);
      var (id, e) := ps[n - 1];
      PutKeys(d, id, e);
      GetKeys(d, id);
      if id in Keys(d) {
        assert Keys(Kept(ps, n)) == Keys(d);
      } else {
        assert Kept(ps, n) == Put(d, id, e);
      }
    }
  }

  /** `split_into_sections`. */
  method SplitIntoSections(text: string, sections: seq<Header>) returns (result: Entries)
    ensures result == Kept(Pieces(text, sections), |sections|)
  {
    ghost var ps := Pieces(text, sections);
    result := [];
    for i := 0 to |sections|
      invariant result == Kept(ps, i)
    {
      var end := if i + 1 < |sections| then sections[i + 1].position else |text|;
      var content := Strip(Slice(text, sections[i].position, end));
      assert ps[i] == (sections[i].id, Entry(sections[i].title, content));
      KeptStep(ps, i);
      var stored := Get(result, sections[i].id);
      if stored.Some? && |content| <= |stored.value.content| {
        continue;
      }
      result := Put(result, sections[i].id, Entry(sections[i].title, content));
    }
  }

  /** `save_section`: the file name and the text written to it. */
  function SavedSection(id: string, e: Entry): (string, string) {
    (FileName(id), SavedText(id, e.title, e.content, SourceName))
  }
}
