/**
 * The Freddie Mac Seller/Servicer Guide parser: the headers found in the
 * guide's text, the section each one starts, the last occurrence kept for
 * an id that repeats, and the file each section is saved as. Reading the
 * PDF and writing the files are not part of this model.
 */
module FreddieParser {
  import opened Wrappers
  import opened Strings
  import opened GuideSections

  /** The `Source` line written into each saved section: the agency, then the guide. */
  const SourceName := "Freddie Mac" + " Single-Family Seller/Servicer Guide"

  /**
   * `\d{4}\.\d{1,2}:` tried at `j`: where the id ends (at its colon), or
   * -1. Two decimal digits are tried first; giving one back leaves a digit
   * where the colon is needed, so it cannot help.
   */
  function IdEnd(text: string, j: nat): (r: int)
    ensures r == -1 || (j + 6 <= r <= j + 7 && r < |text| && text[r] == ':')
  {
    if j + 6 < |text| && AllDigits(text[j..j + 4]) && text[j + 4] == '.' && IsDigit(text[j + 5]) then
      if IsDigit(text[j + 6]) && j + 7 < |text| && text[j + 7] == ':' then j + 7
      else if text[j + 6] == ':' then j + 6
      else -1
    else -1
  }

  /** A Seller/Servicer Guide section id: four digits, a point, and one or two digits. */
  predicate IsFreddieId(s: string) {
    (|s| == 6 || |s| == 7) && AllDigits(s[..4]) && s[4] == '.' && AllDigits(s[5..])
  }

  /**
   * `\n(\d{4}\.\d{1,2}):\s*([^\n\(]+)` tried at `i`: where the id ends,
   * where the title group starts and where it ends. The spaces after the
   * colon run as far as they can, and are given back only when no title
   * character follows them.
   */
  function MatchSpan(text: string, i: nat): (r: Option<(nat, nat, nat)>)
    ensures r.Some? ==> var (d, t, e) := r.value;
      && i < |text| && text[i] == '\n' && d == IdEnd(text, i + 1) && i + 1 < d
      && d < t < |text| && TitleChar(text[t]) && e == TitleEnd(text, t)
  {
    if i < |text| && text[i] == '\n' then
      var d := IdEnd(text, i + 1);
      if d < 0 then None
      else
        var q := RunEnd(text, d + 1, IsSpace);
        var t := TitleStart(text, d + 1, q);
        if t < 0 then None
        else Some((d, t, TitleEnd(text, t)))
    else None
  }

  /** The section id `id` follows a newline at `p` in `text`. */
  predicate IdAt(text: string, p: nat, id: string) {
    && p < |text| && text[p] == '\n'
    && p + 1 + |id| <= |text| && text[p + 1..p + 1 + |id|] == id
    && IsFreddieId(id)
  }

  /** What a header found in `text` is: after a newline, a section id in the text, and a clean title. */
  predicate WellFormed(text: string, h: Header) {
    IdAt(text, h.position, h.id) && CleanTitle(h.title)
  }

  /** What `IdEnd` recognises is a section id. */
  lemma IdEndShape(text: string, j: nat)
    requires IdEnd(text, j) >= 0
    ensures IsFreddieId(text[j..IdEnd(text, j)])
  {
    var r := IdEnd(text, j);
    var id := text[j..r];
    assert id[..4] == text[j..j + 4];
    assert id[4] == text[j + 4];
    assert forall k :: 5 <= k < |id| ==> id[k] == text[j + k];
    assert forall k :: j + 5 <= k < r ==> IsDigit(text[k]);
  }

  /** The id a match recognises after a newline is a section id. */
  lemma HeaderId(text: string, i: nat, d: nat)
    requires i < |text| && text[i] == '\n' && d == IdEnd(text, i + 1) && i + 1 < d
    ensures IdAt(text, i, text[i + 1..d])
  {
    IdEndShape(text, i + 1);
  }

  /** The header for a match: the id and the stripped title group. It is well formed. */
  function MatchAt(text: string, i: nat): (r: Option<(Header, nat)>)
    ensures r.Some? ==> r.value.0.position == i && i < r.value.1 <= |text|
    ensures r.Some? ==> WellFormed(text, r.value.0)
  {
    match MatchSpan(text, i)
    case None => None
    case Some((d, t, e)) =>
      HeaderId(text, i, d);
      TitleGroupClean(text, t);
      Some((Header(text[i + 1..d], Strip(text[t..e]), i), e))
  }

  /** `find_sections`. */
  function Sections(text: string): seq<Header> {
    Scan(text, 0, MatchAt)
  }

  /** The headers come out in strictly increasing position and each is well formed. */
  lemma SectionsOrdered(text: string)
    ensures forall a, b :: 0 <= a < b < |Sections(text)| ==> Sections(text)[a].position < Sections(text)[b].position
    ensures forall k :: 0 <= k < |Sections(text)| ==> WellFormed(text, Sections(text)[k])
  {
    assert Advances(MatchAt);
    ScanOrdered(text, 0, MatchAt);
    forall k | 0 <= k < |Sections(text)|
      ensures WellFormed(text, Sections(text)[k])
    {
      assert FoundBy(text, 0, MatchAt, Sections(text)[k]);
    }
  }

  /** `find_sections`: every match of the header pattern, left to right. */
  method FindSections(text: string) returns (sections: seq<Header>)
    ensures sections == Sections(text)
  {
    sections := FindAll(text, MatchAt);
  }

  /** The dictionary after the first `n` assignments: each assignment overwrites. */
  function Kept(ps: Entries, n: nat): Entries
    requires n <= |ps|
  {
    if n == 0 then [] else Put(Kept(ps, n - 1), ps[n - 1].0, ps[n - 1].1)
  }

  /** The last of the first `n` assignments to `id`, or -1. */
  function LastIndex(ps: Entries, n: nat, id: string): (j: int)
    requires n <= |ps|
    ensures -1 <= j < n
  {
    if n == 0 then -1 else if ps[n - 1].0 == id then n - 1 else LastIndex(ps, n - 1, id)
  }

  /** Assignment `j` is the last of the first `n` to `id`. */
  predicate Last(ps: Entries, n: nat, id: string, j: nat)
    requires n <= |ps|
  {
    j < n && ps[j].0 == id && forall i :: j < i < n ==> ps[i].0 != id
  }

  lemma {:induction false} KeptLastIndex(ps: Entries, n: nat, id: string)
    requires n <= |ps|
    ensures Get(Kept(ps, n), id) == if LastIndex(ps, n, id) < 0 then None else Some(ps[LastIndex(ps, n, id)].1)
  {
    if n > 0 {
      KeptLastIndex(ps, n - 1, id);
      PutFind(Kept(ps, n - 1), ps[n - 1].0, ps[n - 1].1, id);
    }
  }

  lemma {:induction false} LastIndexLast(ps: Entries, n: nat, id: string)
    requires n <= |ps|
    ensures LastIndex(ps, n, id) < 0 <==> !Occurs(ps, n, id)
    ensures LastIndex(ps, n, id) >= 0 ==> Last(ps, n, id, LastIndex(ps, n, id))
  {
    if n > 0 {
      LastIndexLast(ps, n - 1, id);
      assert Occurs(ps, n - 1, id) ==> Occurs(ps, n, id);
      if ps[n - 1].0 != id {
        assert Occurs(ps, n, id) ==> Occurs(ps, n - 1, id);
      } else {
        assert Occurs(ps, n, id);
      }
    }
  }

  /** An id is stored exactly when some assignment is to it, and what is stored is its last section. */
  lemma KeptLast(ps: Entries, n: nat, id: string)
    requires n <= |ps|
    ensures Get(Kept(ps, n), id).Some? <==> Occurs(ps, n, id)
    ensures Get(Kept(ps, n), id).Some? ==> exists j: nat :: Last(ps, n, id, j) && Get(Kept(ps, n), id).value == ps[j].1
  {
    KeptLastIndex(ps, n, id);
    LastIndexLast(ps, n, id);
  }

  /** The ids are stored in the order of their first assignment: an overwrite keeps the key's place. */
  lemma {:induction false} KeptKeys(ps: Entries, n: nat)
    requires n <= |ps|
    ensures Keys(Kept(ps, n)) == FirstIds(ps, n)
  {
    if n > 0 {
      KeptKeys(ps, n - 1);
      var d := Kept(ps, n - 1);
      var (id, e) := ps[n - 1];
      PutKeys(d, id, e);
      assert Kept(ps, n) == Put(d, id, e);
    }
  }

  /** `split_into_sections`. */
  method SplitIntoSections(text: string, sections: seq<Header>) returns (result: Entries)
    ensures result == Kept(Pieces(text, sections), |sections|)
  {
    ghost var ps := Pieces(text, sections);
    result := [];
    for i := 0 to |sections|
      invariant result == Kept(ps, i)
    {
      var end := if i + 1 < |sections| then sections[i + 1].position else |text|;
      var content := Strip(Slice(text, sections[i].position, end));
      assert ps[i] == (sections[i].id, Entry(sections[i].title, content));
      result := Put(result, sections[i].id, Entry(sections[i].title, content));
    }
  }

  /** `save_section`: the file name and the text written to it. */
  function SavedSection(id: string, e: Entry): (string, string) {
    (FileName(id), SavedText(id, e.title, e.content, SourceName))
  }
}
