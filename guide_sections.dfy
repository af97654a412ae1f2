/**
 * What the two guide parsers share: the left-to-right scan for header
 * matches that `finditer` performs, the pieces of a header pattern that
 * both recognisers need, the text between consecutive headers, the
 * insertion-ordered dictionary the sections are collected in, and the text
 * file `save_section` writes. Regular-expression `\s` is Python's
 * whitespace and `\d` an ASCII digit.
 */
module GuideSections {
  import opened Wrappers
  import opened Strings

  /** A header found in the guide text: the section id, its title and where the match starts. */
  datatype Header = Header(id: string, title: string, position: nat)

  /** A recogniser for a header pattern: the header matched at a position, and where the match ends. */
  type Matcher = (string, nat) -> Option<(Header, nat)>

  /** What every recogniser here does: a match starts where it was tried and ends after it. */
  ghost predicate Advances(m: Matcher) {
    forall t: string, j: nat :: m(t, j).Some? ==> m(t, j).value.0.position == j && m(t, j).value.1 > j
  }

  /** Where the scan goes on after trying position `i`. */
  function Next(text: string, i: nat, m: Matcher): (j: nat)
    ensures j > i
  {
    match m(text, i)
    case None => i + 1
    case Some((_, end)) => if end > i then end else i + 1
  }

  /**
   * `pattern.finditer(text)` from position `i`: the pattern is tried at
   * each position in turn, and after a match the scan goes on from its end
   * (from the next position after an empty match).
   */
  function Scan(text: string, i: nat, m: Matcher): seq<Header>
    decreases |text| + 1 - i
  {
    if i > |text| then []
    else if m(text, i).None? then Scan(text, Next(text, i, m), m)
    else [m(text, i).value.0] + Scan(text, Next(text, i, m), m)
  }

  /**
   * The loop of `find_sections`: each match `finditer` yields is appended,
   * in the order found.
   */
  method FindAll(text: string, m: Matcher) returns (hs: seq<Header>)
    ensures hs == Scan(text, 0, m)
  {
    hs := [];
    var i := 0;
    while i <= |text|
      invariant hs + Scan(text, i, m) == Scan(text, 0, m)
      decreases |text| + 1 - i
    {
      var r := m(text, i);
      var next := if r.None? then i + 1 else if r.value.1 > i then r.value.1 else i + 1;
      assert next == Next(text, i, m);
      if r.Some? {
        assert Scan(text, i, m) == [r.value.0] + Scan(text, next, m);
        assert hs + Scan(text, i, m) == (hs + [r.value.0]) + Scan(text, next, m);
        hs := hs + [r.value.0];
      }
      i := next;
    }
  }

  /** Header `h` is the match at its own position, at or after `i`. */
  predicate FoundBy(text: string, i: nat, m: Matcher, h: Header) {
    i <= h.position <= |text| && m(text, h.position).Some? && m(text, h.position).value.0 == h
  }

  /** The matches come out left to right, each one the match at its own position, none before `i`. */
  lemma {:induction false} ScanOrdered(text: string, i: nat, m: Matcher)
    requires Advances(m)
    ensures forall k :: 0 <= k < |Scan(text, i, m)| ==> FoundBy(text, i, m, Scan(text, i, m)[k])
    ensures forall a, b :: 0 <= a < b < |Scan(text, i, m)| ==> Scan(text, i, m)[a].position < Scan(text, i, m)[b].position
    decreases |text| + 1 - i
  {
    if i <= |text| {
      if m(text, i).None? {
        ScanOrdered(text, i + 1, m);
        assert Scan(text, i, m) == Scan(text, i + 1, m);
      } else {
        assert Next(text, i, m) == m(text, i).value.1;
        var (h, end) := m(text, i).value;
        assert h.position == i && end > i;
        ScanOrdered(text, end, m);
        var rest := Scan(text, end, m);
        var hs := Scan(text, i, m);
        assert hs == [h] + rest;
        forall k | 0 <= k < |hs|
          ensures FoundBy(text, i, m, hs[k])
        {
          if k > 0 {
            assert hs[k] == rest[k - 1];
          }
        }
        forall a, b | 0 <= a < b < |hs|
          ensures hs[a].position < hs[b].position
        {
          assert hs[b] == rest[b - 1];
          if a > 0 {
            assert hs[a] == rest[a - 1];
          }
        }
      }
    }
  }

  /** The end of the longest run of characters with property `p` from `j`. */
  function RunEnd(s: string, j: nat, p: char -> bool): (r: nat)
    requires j <= |s|
    ensures j <= r <= |s|
    ensures forall k :: j <= k < r ==> p(s[k])
    ensures r < |s| ==> !p(s[r])
    decreases |s| - j
  {
    if j < |s| && p(s[j]) then RunEnd(s, j + 1, p) else j
  }

  /** A run of characters with `p` that stops at `r` ends at `r`. */
  lemma RunEndIs(s: string, j: nat, p: char -> bool, r: nat)
    requires j <= r <= |s|
    requires forall k :: j <= k < r ==> p(s[k])
    requires r < |s| ==> !p(s[r])
    ensures RunEnd(s, j, p) == r
  {
  }

  /** A character a title can hold: `[^\n\(]`. */
  predicate TitleChar(c: char) { c != '\n' && c != '(' }

  /** The last position in `[lo, hi)` that is not a newline, or -1 when there is none. */
  function LastNonNewline(s: string, lo: nat, hi: nat): (r: int)
    requires hi <= |s|
    ensures r == -1 || (lo <= r < hi && s[r] != '\n')
    ensures forall k :: (if r < 0 then lo else r + 1) <= k < hi ==> s[k] == '\n'
    decreases hi
  {
    if hi <= lo then -1
    else if s[hi - 1] != '\n' then hi - 1
    else LastNonNewline(s, lo, hi - 1)
  }

  /**
   * Where the title group `([^\n\(]+)` starts after a run of separators
   * `[lo, q)` that may be given back: at `q` when a title character
   * follows the run, otherwise, backtracking, at the last separator in the
   * run that is not a newline; -1 when the pattern fails here. No
   * separator is a parenthesis.
   */
  function TitleStart(s: string, lo: nat, q: nat): (t: int)
    requires lo <= q <= |s|
    requires forall k :: lo <= k < q ==> s[k] != '('
    ensures t == -1 || (lo <= t <= q && t < |s| && TitleChar(s[t]))
  {
    if q < |s| && s[q] != '(' && s[q] != '\n' then q else LastNonNewline(s, lo, q)
  }

  /** The end of the title group from `j`: the longest run of title characters. */
  function TitleEnd(s: string, j: nat): (r: nat)
    requires j <= |s|
    ensures j <= r <= |s|
    ensures forall k :: j <= k < r ==> TitleChar(s[k])
    ensures r < |s| ==> !TitleChar(s[r])
    decreases |s| - j
  {
    if j < |s| && TitleChar(s[j]) then TitleEnd(s, j + 1) else j
  }

  /** A clean title: no whitespace at either end, no newline and no parenthesis. */
  predicate CleanTitle(title: string) {
    && (|title| > 0 ==> !IsSpace(title[0]) && !IsSpace(title[|title| - 1]))
    && '\n' !in title && '(' !in title
  }

  /** A title taken from a title group is clean. */
  lemma TitleGroupClean(s: string, t: nat)
    requires t < |s| && TitleChar(s[t])
    ensures CleanTitle(Strip(s[t..TitleEnd(s, t)]))
  {
    var raw := s[t..TitleEnd(s, t)];
    assert forall c :: c in raw ==> TitleChar(c);
  }

  /** `text[a:b]` for non-negative bounds. */
  function Slice(s: string, a: nat, b: nat): (r: string)
    ensures a <= b <= |s| ==> r == s[a..b]
    ensures b <= a ==> r == ""
  {
    if a >= b || a >= |s| then "" else s[a..if b <= |s| then b else |s|]
  }

  /** Where section `i` ends: where the next header starts, or at the end of the text for the last one. */
  function EndOf(text: string, hs: seq<Header>, i: nat): nat
    requires i < |hs|
  {
    if i + 1 < |hs| then hs[i + 1].position else |text|
  }

  /** The stripped text between header `i` and the next one. */
  function ContentAt(text: string, hs: seq<Header>, i: nat): string
    requires i < |hs|
  {
    Strip(Slice(text, hs[i].position, EndOf(text, hs, i)))
  }

  /** A dictionary value: the section's title and its content. */
  datatype Entry = Entry(title: string, content: string)

  /**
   * The assignments `split_into_sections` considers, in header order: each
   * header's id with its title and the stripped text up to the next header.
   */
  function Pieces(text: string, hs: seq<Header>): (ps: seq<(string, Entry)>)
    ensures |ps| == |hs|
    ensures forall i :: 0 <= i < |hs| ==> ps[i] == (hs[i].id, Entry(hs[i].title, ContentAt(text, hs, i)))
  {
    seq(|hs|, i requires 0 <= i < |hs| => (hs[i].id, Entry(hs[i].title, ContentAt(text, hs, i))))
  }

  /** A Python dictionary from section id to entry, in insertion order. */
  type Entries = seq<(string, Entry)>

  /** The keys, in insertion order. */
  function Keys(d: Entries): (r: seq<string>)
    decreases |d|
  {
    if |d| == 0 then [] else [d[0].0] + Keys(d[1..])
  }

  /** `d.get(key)`. */
  function Get(d: Entries, key: string): Option<Entry>
    decreases |d|
  {
    if |d| == 0 then None
    else if d[0].0 == key then Some(d[0].1)
    else Get(d[1..], key)
  }

  /** A key has a value exactly when it is one of the keys. */
  lemma {:induction false} GetKeys(d: Entries, key: string)
    ensures Get(d, key).Some? <==> key in Keys(d)
    decreases |d|
  {
    if |d| > 0 {
      GetKeys(d[1..], key);
    }
  }

  /** `d[key] = e`: an existing key keeps its place, a new one goes last. */
  function Put(d: Entries, key: string, e: Entry): Entries
    decreases |d|
  {
    if |d| == 0 then [(key, e)]
    else if d[0].0 == key then [(key, e)] + d[1..]
    else [d[0]] + Put(d[1..], key, e)
  }

  /** After `d[key] = e`, `key` holds `e` and every other key what it held. */
  lemma {:induction false} PutFind(d: Entries, key: string, e: Entry, other: string)
    ensures Get(Put(d, key, e), key) == Some(e)
    ensures other != key ==> Get(Put(d, key, e), other) == Get(d, other)
    decreases |d|
  {
    if |d| > 0 && d[0].0 != key {
      PutFind(d[1..], key, e, other);
      assert Put(d, key, e)[1..] == Put(d[1..], key, e);
    }
  }

  /** Assigning keeps the keys when the key is present and adds it last when it is not. */
  lemma {:induction false} PutKeys(d: Entries, key: string, e: Entry)
    ensures key in Keys(d) ==> Keys(Put(d, key, e)) == Keys(d)
    ensures key !in Keys(d) ==> Keys(Put(d, key, e)) == Keys(d) + [key]
    decreases |d|
  {
    if |d| == 0 {
      assert Keys(Put(d, key, e)) == [key];
    } else {
      var ks := Keys(d[1..]);
      if d[0].0 == key {
        assert Put(d, key, e)[1..] == d[1..];
      } else {
        PutKeys(d[1..], key, e);
        assert Put(d, key, e)[1..] == Put(d[1..], key, e);
        assert key in Keys(d) <==> key in ks;
      }
    }
  }

  /** The ids of the first `n` assignments, each once, in the order of their first assignment. */
  function FirstIds(ps: Entries, n: nat): (r: seq<string>)
    requires n <= |ps|
  {
    if n == 0 then []
    else
      var before := FirstIds(ps, n - 1);
      if ps[n - 1].0 in before then before else before + [ps[n - 1].0]
  }

  /** Some of the first `n` assignments is to `id`. */
  predicate Occurs(ps: Entries, n: nat, id: string)
    requires n <= |ps|
  {
    exists j :: 0 <= j < n && ps[j].0 == id
  }

  /** The first ids are exactly the ids assigned, each once. */
  lemma {:induction false} FirstIdsSpec(ps: Entries, n: nat, id: string)
    requires n <= |ps|
    ensures id in FirstIds(ps, n) <==> Occurs(ps, n, id)
    ensures forall a, b :: 0 <= a < b < |FirstIds(ps, n)| ==> FirstIds(ps, n)[a] != FirstIds(ps, n)[b]
  {
    if n > 0 {
      FirstIdsSpec(ps, n - 1, id);
      if Occurs(ps, n, id) && ps[n - 1].0 != id {
        var j :| 0 <= j < n && ps[j].0 == id;
        assert j < n - 1;
      }
      assert Occurs(ps, n - 1, id) ==> Occurs(ps, n, id);
    }
  }

  const SourcePrefix := "Source: "
  const SectionIdPrefix := "Section ID: "
  const BodySeparator := "\n\n---\n\n"

  /**
   * The text `save_section` writes: the header line `# id: title`, the
   * source line, the section id line, a rule, and the content.
   */
  function SavedText(id: string, title: string, content: string, source: string): string {
    "# " + id + ": " + title + "\n" + SourcePrefix + source + "\n" + SectionIdPrefix + id + BodySeparator + content + "\n"
  }

  /** The file name: the id with each `.` turned into `-`, then `.txt`. */
  function FileName(id: string): (r: string)
    ensures |r| == |id| + 4 && '.' !in r[..|id|] && r[|id|..] == ".txt"
  {
    ReplaceChar(id, '.', '-') + ".txt"
  }
}
