/**
 * The retrieval-augmented answer service: the metadata filter of a query,
 * the numbered context and source map built from the retrieved chunks, the
 * history window sent with the question, the reply when nothing was
 * retrieved, and the mapping of `[n]` references in the answer back to
 * citations, one per source. The embedding endpoint, the vector index and
 * the language model are parameters.
 */
module Rag {
  import opened Wrappers
  import opened Strings
  import opened JsonValue
  import opened ChatModels

  /** A match from the vector index: its metadata, empty when the index returned none. */
  datatype RetrievedChunk = RetrievedChunk(id: string, score: real, metadata: Dict)

  /** `source_map[i]`: what the service remembers of chunk `i`. */
  datatype SourceInfo = SourceInfo(source: Json, section: Json, gse: Json, url: Option<Json>)

  /** The filter sent with a query: equality on `gse` when a guide was named, none otherwise. */
  function MetadataFilter(gseFilter: Option<string>): (r: Option<Json>)
    ensures r.Some? <==> gseFilter.Some? && gseFilter.value != ""
    ensures r.Some? ==> r.value == JObj([("gse", JObj([("$eq", JStr(gseFilter.value))]))])
  {
    if gseFilter.Some? && gseFilter.value != "" then Some(JObj([("gse", JObj([("$eq", JStr(gseFilter.value))]))])) else None
  }

  const DocumentName := "Document "
  const SourceKey := "source"
  const SectionKey := "section"
  const GseKey := "gse"
  const UrlKey := "url"
  const TextKey := "text"

  /** The source map entry of chunk `i`. */
  function SourceInfoOf(c: RetrievedChunk, i: nat): SourceInfo {
    var md := c.metadata;
    SourceInfo(GetOr(md, SourceKey, JStr(DocumentName + NatToString(i + 1))), GetOr(md, SectionKey, JStr("")),
               GetOr(md, GseKey, JStr("")), Get(md, UrlKey))
  }

  /** A chunk without a source is called "Document {i+1}"; a missing section or guide is empty; the url is kept as given. */
  lemma SourceInfoDefaults(c: RetrievedChunk, i: nat)
    ensures var info := SourceInfoOf(c, i);
      && (Get(c.metadata, "source").None? ==> info.source == JStr("Document " + NatToString(i + 1)))
      && (Get(c.metadata, "source").Some? ==> info.source == Get(c.metadata, "source").value)
      && (Get(c.metadata, "section").None? ==> info.section == JStr(""))
      && (Get(c.metadata, "gse").None? ==> info.gse == JStr(""))
      && info.url == Get(c.metadata, "url")
  {
  }

  /** The source map of a list of chunks, entry `i` for chunk `i`. */
  function SourceMap(chunks: seq<RetrievedChunk>): (sm: seq<SourceInfo>)
    ensures |sm| == |chunks|
  {
    seq(|chunks|, i requires 0 <= i < |chunks| => SourceInfoOf(chunks[i], i))
  }

  /** The head of context section `i`: its number as the model is asked to cite it. */
  function ContextLabel(i: nat): string {
    "[" + NatToString(i + 1) + "]"
  }

  const SourceLabel := " Source: "
  const SectionLabel := "\nSection: "
  const NewLine := "\n"

  /** The text of context section `i` after its label. */
  function ContextBody(c: RetrievedChunk, i: nat, repr: Json -> string): string {
    var info := SourceInfoOf(c, i);
    SourceLabel + PyStr(info.source, repr) + SectionLabel + PyStr(info.section, repr) + NewLine
    + PyStr(GetOr(c.metadata, TextKey, JStr("")), repr) + NewLine
  }

  /** Context section `i`: number, source, section and text of the chunk. */
  function ContextPart(c: RetrievedChunk, i: nat, repr: Json -> string): string {
    ContextLabel(i) + ContextBody(c, i, repr)
  }

  /** Section `i` opens with `[i+1]`, the number a reference to it uses. */
  lemma ContextPartLabel(c: RetrievedChunk, i: nat, repr: Json -> string)
    ensures StartsWith(ContextPart(c, i, repr), ContextLabel(i))
  {
    StartsWithConcat(ContextLabel(i), ContextBody(c, i, repr));
  }

  /** The context sections of the chunks, section `i` for chunk `i`. */
  function ContextParts(chunks: seq<RetrievedChunk>, repr: Json -> string): (parts: seq<string>)
    ensures |parts| == |chunks|
  {
    seq(|chunks|, i requires 0 <= i < |chunks| => ContextPart(chunks[i], i, repr))
  }

  /** The loop of `generate_response` that numbers the chunks and records their sources. */
  method BuildContext(chunks: seq<RetrievedChunk>, repr: Json -> string) returns (sourceMap: seq<SourceInfo>, parts: seq<string>)
    ensures sourceMap == SourceMap(chunks) && parts == ContextParts(chunks, repr)
  {
    sourceMap, parts := [], [];
    for i := 0 to |chunks|
      invariant |sourceMap| == i && forall j :: 0 <= j < i ==> sourceMap[j] == SourceInfoOf(chunks[j], j)
      invariant |parts| == i && forall j :: 0 <= j < i ==> parts[j] == ContextPart(chunks[j], j, repr)
    {
      sourceMap := sourceMap + [SourceInfoOf(chunks[i], i)];
      parts := parts + [ContextPart(chunks[i], i, repr)];
    }
  }

  const PromptIntro := "Based on the following context from mortgage guidelines, please answer my question.\n\nCONTEXT:\n"
  const PromptQuestion := "\n\nQUESTION: "
  const PromptClosing := "\n\nPlease provide a clear, accurate answer with citations to the relevant source sections."

  /** The question as the model receives it, with the joined context sections. */
  function UserPrompt(contextStr: string, query: string): string {
    PromptIntro + contextStr + PromptQuestion + query + PromptClosing
  }

  const HistoryWindow := 6

  /** The messages sent to the model: the last six turns of the history, then the question. */
  function ModelMessages(history: seq<Turn>, userContent: string): (r: seq<Turn>)
    ensures |r| == (if |history| < HistoryWindow then |history| else HistoryWindow) + 1
    ensures r[..|r| - 1] == history[|history| - (|r| - 1)..]
    ensures r[|r| - 1] == ("user", userContent)
  {
    var window := if |history| <= HistoryWindow then history else history[|history| - HistoryWindow..];
    window + [("user", userContent)]
  }

  /** The run of decimal digits at the start of `s`. */
  function DigitPrefix(s: string): (r: string)
    ensures |r| <= |s| && r == s[..|r|] && AllDigits(r)
    ensures |r| < |s| ==> !IsDigit(s[|r|])
    decreases |s|
  {
    if |s| > 0 && IsDigit(s[0]) then [s[0]] + DigitPrefix(s[1..]) else ""
  }

  /**
   * `re.findall(r"\[(\d+)\]", text)`: scanning left to right, each `[`
   * followed by digits and `]` gives its digits, and the scan resumes after
   * the `]`.
   */
  function Refs(text: string): (r: seq<string>)
    ensures forall k :: 0 <= k < |r| ==> |r[k]| > 0 && AllDigits(r[k])
    decreases |text|
  {
    if |text| == 0 then []
    else if text[0] == '[' then
      var d := DigitPrefix(text[1..]);
      if |d| > 0 && |d| + 1 < |text| && text[|d| + 1] == ']' then [d] + Refs(text[|d| + 2..])
      else Refs(text[1..])
    else Refs(text[1..])
  }

  /** Every reference found is written `[digits]` in the text. */
  lemma {:induction false} RefsOccur(text: string)
    ensures forall k :: 0 <= k < |Refs(text)| ==> Contains(text, "[" + Refs(text)[k] + "]")
    decreases |text|
  {
    if |text| > 0 {
      if text[0] == '[' {
        var d := DigitPrefix(text[1..]);
        if |d| > 0 && |d| + 1 < |text| && text[|d| + 1] == ']' {
          var rest := text[|d| + 2..];
          RefsOccur(rest);
          assert Refs(text) == [d] + Refs(rest);
          assert StartsWith(text, "[" + d + "]") by {
            assert text[..|d| + 2] == "[" + d + "]";
          }
          forall k | 0 < k < |Refs(text)| ensures Contains(text, "[" + Refs(text)[k] + "]") {
            assert Refs(text)[k] == Refs(rest)[k - 1];
            assert text[|d| + 2..] == rest;
            ContainsAt(text, "[" + Refs(rest)[k - 1] + "]", |d| + 2 + Find(rest, "[" + Refs(rest)[k - 1] + "]"));
          }
          return;
        }
      }
      RefsOccur(text[1..]);
      forall k | 0 <= k < |Refs(text)| ensures Contains(text, "[" + Refs(text)[k] + "]") {
        assert Refs(text) == Refs(text[1..]);
      }
    }
  }

  /** The numbers the references name: `int(ref)`. */
  function RefNumbers(refs: seq<string>): (nums: seq<nat>)
    requires forall k :: 0 <= k < |refs| ==> AllDigits(refs[k])
    ensures |nums| == |refs| && forall k :: 0 <= k < |refs| ==> nums[k] == DigitsValue(refs[k])
  {
    seq(|refs|, k requires 0 <= k < |refs| => DigitsValue(refs[k]))
  }

  /** The sources of the chunks picked so far. */
  function SourcesOf(picked: seq<nat>, sm: seq<SourceInfo>): (r: seq<Json>)
    requires forall j :: 0 <= j < |picked| ==> picked[j] < |sm|
    ensures |r| == |picked| && forall j :: 0 <= j < |picked| ==> r[j] == sm[picked[j]].source
  {
    seq(|picked|, j requires 0 <= j < |picked| => sm[picked[j]].source)
  }

  /** A reference `[n]` is usable when `n - 1` numbers a chunk. */
  predicate InMap(n: nat, sm: seq<SourceInfo>) { 1 <= n <= |sm| }

  /**
   * The chunks the first `k` references pick, in order: reference `[n]`
   * picks chunk `n - 1` when there is one and no chunk with its source was
   * picked before.
   */
  function PickedUpTo(nums: seq<nat>, k: nat, sm: seq<SourceInfo>): (r: seq<nat>)
    requires k <= |nums|
    ensures |r| <= k && forall j :: 0 <= j < |r| ==> r[j] < |sm|
  {
    if k == 0 then []
    else
      var prev := PickedUpTo(nums, k - 1, sm);
      var n := nums[k - 1];
      if InMap(n, sm) && sm[n - 1].source !in SourcesOf(prev, sm) then prev + [n - 1] else prev
  }

  /** The chunks all the references pick. */
  function Picked(nums: seq<nat>, sm: seq<SourceInfo>): (r: seq<nat>)
    ensures |r| <= |nums| && forall j :: 0 <= j < |r| ==> r[j] < |sm|
  {
    PickedUpTo(nums, |nums|, sm)
  }

  /** Each chunk picked by the first `k` references is named by one of them. */
  lemma {:induction false} PickedUpToReferenced(nums: seq<nat>, k: nat, sm: seq<SourceInfo>)
    requires k <= |nums|
    ensures forall j :: 0 <= j < |PickedUpTo(nums, k, sm)| ==> exists i :: 0 <= i < k && nums[i] == PickedUpTo(nums, k, sm)[j] + 1
  {
    if k > 0 {
      PickedUpToReferenced(nums, k - 1, sm);
      var prev, p, n := PickedUpTo(nums, k - 1, sm), PickedUpTo(nums, k, sm), nums[k - 1];
      if InMap(n, sm) && sm[n - 1].source !in SourcesOf(prev, sm) {
        assert p == prev + [n - 1];
      } else {
        assert p == prev;
      }
      forall j | 0 <= j < |p| ensures exists i :: 0 <= i < k && nums[i] == p[j] + 1 {
        if j < |prev| {
          assert p[j] == prev[j];
        } else {
          assert nums[k - 1] == p[j] + 1;
        }
      }
    } else {
      assert PickedUpTo(nums, k, sm) == [];
    }
  }

  /** Each picked chunk is named by some reference. */
  lemma PickedReferenced(nums: seq<nat>, sm: seq<SourceInfo>)
    ensures forall j :: 0 <= j < |Picked(nums, sm)| ==> exists k :: 0 <= k < |nums| && nums[k] == Picked(nums, sm)[j] + 1
  {
    PickedUpToReferenced(nums, |nums|, sm);
    assert Picked(nums, sm) == PickedUpTo(nums, |nums|, sm);
  }

  /** No two chunks picked by the first `k` references have the same source. */
  lemma {:induction false} PickedUpToDistinct(nums: seq<nat>, k: nat, sm: seq<SourceInfo>)
    requires k <= |nums|
    ensures forall j1, j2 :: 0 <= j1 < j2 < |PickedUpTo(nums, k, sm)| ==> sm[PickedUpTo(nums, k, sm)[j1]].source != sm[PickedUpTo(nums, k, sm)[j2]].source
  {
    if k > 0 {
      PickedUpToDistinct(nums, k - 1, sm);
      var prev, p, n := PickedUpTo(nums, k - 1, sm), PickedUpTo(nums, k, sm), nums[k - 1];
      assert forall j1, j2 :: 0 <= j1 < j2 < |prev| ==> sm[prev[j1]].source != sm[prev[j2]].source;
      if InMap(n, sm) && sm[n - 1].source !in SourcesOf(prev, sm) {
        assert p == prev + [n - 1];
        forall j1, j2 | 0 <= j1 < j2 < |p| ensures sm[p[j1]].source != sm[p[j2]].source {
          assert p[j1] == prev[j1];
          if j2 < |prev| {
            assert p[j2] == prev[j2];
          } else {
            assert SourcesOf(prev, sm)[j1] == sm[prev[j1]].source;
          }
        }
      } else {
        assert p == prev;
      }
    }
  }

  /** No two picked chunks have the same source. */
  lemma PickedDistinctSources(nums: seq<nat>, sm: seq<SourceInfo>)
    ensures forall j1, j2 :: 0 <= j1 < j2 < |Picked(nums, sm)| ==> sm[Picked(nums, sm)[j1]].source != sm[Picked(nums, sm)[j2]].source
  {
    PickedUpToDistinct(nums, |nums|, sm);
    assert Picked(nums, sm) == PickedUpTo(nums, |nums|, sm);
  }

  /** What the first `k` references pick does not depend on the references after them. */
  lemma {:induction false} PickedUpToPrefix(nums: seq<nat>, m: nat, k: nat, sm: seq<SourceInfo>)
    requires k <= m <= |nums|
    ensures PickedUpTo(nums[..m], k, sm) == PickedUpTo(nums, k, sm)
  {
    if k > 0 {
      PickedUpToPrefix(nums, m, k - 1, sm);
      assert nums[..m][k - 1] == nums[k - 1];
    }
  }

  /** The first `k` references pick a prefix of what more references pick. */
  lemma {:induction false} PickedUpToGrows(nums: seq<nat>, k: nat, m: nat, sm: seq<SourceInfo>)
    requires k <= m <= |nums|
    ensures var p := PickedUpTo(nums, m, sm); var q := PickedUpTo(nums, k, sm); |q| <= |p| && p[..|q|] == q
  {
    if k < m {
      PickedUpToGrows(nums, k, m - 1, sm);
      var p, prev := PickedUpTo(nums, m, sm), PickedUpTo(nums, m - 1, sm);
      assert p[..|prev|] == prev;
    }
  }

  /** The references whose chunks come first are picked first: a prefix of the references picks a prefix of the chunks. */
  lemma PickedPrefix(nums: seq<nat>, sm: seq<SourceInfo>, k: nat)
    requires k <= |nums|
    ensures var p := Picked(nums, sm); var q := Picked(nums[..k], sm); |q| <= |p| && p[..|q|] == q
  {
    PickedUpToPrefix(nums, k, k, sm);
    PickedUpToGrows(nums, k, |nums|, sm);
  }

  /** Every usable one of the first `k` references has its source among the chunks they pick. */
  lemma {:induction false} PickedUpToComplete(nums: seq<nat>, k: nat, sm: seq<SourceInfo>)
    requires k <= |nums|
    ensures forall i :: 0 <= i < k && InMap(nums[i], sm) ==> sm[nums[i] - 1].source in SourcesOf(PickedUpTo(nums, k, sm), sm)
  {
    if k > 0 {
      PickedUpToComplete(nums, k - 1, sm);
      var prev, p := PickedUpTo(nums, k - 1, sm), PickedUpTo(nums, k, sm);
      assert p[..|prev|] == prev;
      forall i | 0 <= i < k && InMap(nums[i], sm) ensures sm[nums[i] - 1].source in SourcesOf(p, sm) {
        if i < k - 1 {
          var j :| 0 <= j < |prev| && SourcesOf(prev, sm)[j] == sm[nums[i] - 1].source;
          assert SourcesOf(p, sm)[j] == SourcesOf(prev, sm)[j];
        } else if p != prev {
          assert SourcesOf(p, sm)[|prev|] == sm[nums[i] - 1].source;
        }
      }
    }
  }

  /** Every usable reference has its source among the picked chunks. */
  lemma PickedComplete(nums: seq<nat>, sm: seq<SourceInfo>)
    ensures forall k :: 0 <= k < |nums| && InMap(nums[k], sm) ==> sm[nums[k] - 1].source in SourcesOf(Picked(nums, sm), sm)
  {
    PickedUpToComplete(nums, |nums|, sm);
  }

  /** `text[:200]` of a chunk's text, as a `str` field accepts it: a list slices but is refused, anything else cannot be sliced. */
  function CitationText(j: Json): (r: Result<string>)
    ensures r.Ok? <==> j.JStr?
    ensures r.Ok? ==> |r.value| <= 200 && |r.value| <= |j.s| && r.value == j.s[..|r.value|] && (|j.s| <= 200 ==> r.value == j.s)
  {
    if j.JStr? then Ok(Take(j.s, 200))
    else if j.JArr? then Err(ValidationError)
    else Err(TypeError)
  }

  /** A `str | None` field: a string, or nothing for a missing or null value. */
  function UrlField(url: Option<Json>): (r: Result<Option<string>>)
    ensures r.Ok? <==> url.None? || url.value.JNull? || url.value.JStr?
  {
    match url
    case None => Ok(None)
    case Some(JNull) => Ok(None)
    case Some(JStr(s)) => Ok(Some(s))
    case Some(_) => Err(ValidationError)
  }

  /**
   * The citation for a picked chunk: the first 200 characters of its text,
   * "{Gse Title} - {section}" as the source, and its url. A list or an
   * object as the source cannot be put into the seen set, a non-string guide has no
   * `replace`, and the other fields must suit the model's types.
   */
  function CitationOf(info: SourceInfo, c: RetrievedChunk, repr: Json -> string): Result<Citation>
  {
    var text := GetOr(c.metadata, "text", JStr(""));
    if info.source.JArr? || info.source.JObj? then Err(TypeError)
    else if !text.JStr? && !text.JArr? then Err(TypeError)
    else if !info.gse.JStr? then Err(AttributeError)
    else if text.JArr? then Err(ValidationError)
    else
      match UrlField(info.url)
      case Err(e) => Err(e)
      case Ok(url) => Ok(Citation(Take(text.s, 200), Title(ReplaceChar(info.gse.s, '_', ' ')) + " - " + PyStr(info.section, repr), url))
  }

  /**
   * A citation is built exactly when the source can be hashed, the guide is
   * a string and the text and url suit the model; it holds at most the
   * first 200 characters of the text and names the guide and section.
   */
  lemma CitationOfSpec(info: SourceInfo, c: RetrievedChunk, repr: Json -> string)
    ensures var r := CitationOf(info, c, repr); var text := GetOr(c.metadata, "text", JStr(""));
      && (r.Ok? <==> !info.source.JArr? && !info.source.JObj? && info.gse.JStr? && text.JStr? && UrlField(info.url).Ok?)
      && (r.Ok? ==> |r.value.text| <= 200 && r.value.text == Take(text.s, 200))
      && (r.Ok? ==> r.value.source == Title(ReplaceChar(info.gse.s, '_', ' ')) + " - " + PyStr(info.section, repr))
      && (r.Ok? ==> r.value.url == UrlField(info.url).value)
  {
  }

  /** How the citation of a chunk is built from its source map entry. */
  type CiteFn = (SourceInfo, RetrievedChunk) -> Result<Citation>

  /** The citation builder of the service, with `repr` for the section. */
  function Cite(repr: Json -> string): (cite: CiteFn)
    ensures forall info, c :: cite(info, c) == CitationOf(info, c, repr)
  {
    (info: SourceInfo, c: RetrievedChunk) => CitationOf(info, c, repr)
  }

  /**
   * The citations of the picked chunks in order, or the first error building
   * one; an index past the chunks would raise `IndexError`.
   */
  function CitationsFor(picked: seq<nat>, sm: seq<SourceInfo>, chunks: seq<RetrievedChunk>, cite: CiteFn): (r: Result<seq<Citation>>)
    ensures r.Ok? ==> |r.value| == |picked|
    decreases |picked|
  {
    if |picked| == 0 then Ok([])
    else
      match CitationsFor(picked[..|picked| - 1], sm, chunks, cite)
      case Err(e) => Err(e)
      case Ok(cs) =>
        var i := picked[|picked| - 1];
        if i >= |sm| || i >= |chunks| then Err(IndexError)
        else
          match cite(sm[i], chunks[i])
          case Err(e) => Err(e)
          case Ok(c) => Ok(cs + [c])
  }

  /** Citation `j` is the citation of picked chunk `j`. */
  lemma {:induction false} CitationsForEach(picked: seq<nat>, sm: seq<SourceInfo>, chunks: seq<RetrievedChunk>, cite: CiteFn)
    requires |sm| == |chunks| && forall j :: 0 <= j < |picked| ==> picked[j] < |sm|
    requires CitationsFor(picked, sm, chunks, cite).Ok?
    ensures forall j :: 0 <= j < |picked| ==> cite(sm[picked[j]], chunks[picked[j]]) == Ok(CitationsFor(picked, sm, chunks, cite).value[j])
    decreases |picked|
  {
    if |picked| > 0 {
      var init := picked[..|picked| - 1];
      CitationsForEach(init, sm, chunks, cite);
      var cs := CitationsFor(picked, sm, chunks, cite).value;
      forall j | 0 <= j < |picked| ensures cite(sm[picked[j]], chunks[picked[j]]) == Ok(cs[j]) {
        if j < |init| {
          assert picked[j] == init[j];
          assert cs[j] == CitationsFor(init, sm, chunks, cite).value[j];
        }
      }
    }
  }

  /** Once building the citations for the first `k` references has failed, the later references do not change the error. */
  lemma {:induction false} CitationsErrStays(nums: seq<nat>, sm: seq<SourceInfo>, chunks: seq<RetrievedChunk>, cite: CiteFn, k: nat, m: nat)
    requires |sm| == |chunks| && k <= m <= |nums|
    requires CitationsFor(PickedUpTo(nums, k, sm), sm, chunks, cite).Err?
    ensures CitationsFor(PickedUpTo(nums, m, sm), sm, chunks, cite) == CitationsFor(PickedUpTo(nums, k, sm), sm, chunks, cite)
  {
    if k < m {
      CitationsErrStays(nums, sm, chunks, cite, k, m - 1);
      var p := PickedUpTo(nums, m, sm);
      if p != PickedUpTo(nums, m - 1, sm) {
        assert p[..|p| - 1] == PickedUpTo(nums, m - 1, sm);
      }
    }
  }

  /** One more picked chunk adds its source at the end. */
  lemma SourcesOfSnoc(p: seq<nat>, x: nat, sm: seq<SourceInfo>)
    requires x < |sm| && forall j :: 0 <= j < |p| ==> p[j] < |sm|
    ensures SourcesOf(p + [x], sm) == SourcesOf(p, sm) + [sm[x].source]
  {
  }

  /** One more picked chunk whose citation can be built: its citation is appended. */
  lemma CitationsStepOk(p: seq<nat>, x: nat, sm: seq<SourceInfo>, chunks: seq<RetrievedChunk>, cite: CiteFn,
                        cs: seq<Citation>, c: Citation)
    requires x < |sm| && x < |chunks|
    requires CitationsFor(p, sm, chunks, cite) == Ok(cs) && cite(sm[x], chunks[x]) == Ok(c)
    ensures CitationsFor(p + [x], sm, chunks, cite) == Ok(cs + [c])
  {
    assert (p + [x])[..|p|] == p;
  }

  /** One more picked chunk whose citation cannot be built: its error is the result. */
  lemma CitationsStepErr(p: seq<nat>, x: nat, sm: seq<SourceInfo>, chunks: seq<RetrievedChunk>, cite: CiteFn,
                         cs: seq<Citation>, e: PyError)
    requires x < |sm| && x < |chunks|
    requires CitationsFor(p, sm, chunks, cite) == Ok(cs) && cite(sm[x], chunks[x]) == Err(e)
    ensures CitationsFor(p + [x], sm, chunks, cite) == Err(e)
  {
    assert (p + [x])[..|p|] == p;
  }

  /** A usable reference to a source not yet picked picks its chunk. */
  lemma PickedAdds(nums: seq<nat>, sm: seq<SourceInfo>, k: nat)
    requires k < |nums| && InMap(nums[k], sm) && sm[nums[k] - 1].source !in SourcesOf(PickedUpTo(nums, k, sm), sm)
    ensures PickedUpTo(nums, k + 1, sm) == PickedUpTo(nums, k, sm) + [nums[k] - 1]
  {
  }

  /** A reference to a new source whose citation cannot be built ends the loop with that error. */
  lemma ExtractFails(nums: seq<nat>, sm: seq<SourceInfo>, chunks: seq<RetrievedChunk>, cite: CiteFn,
                     k: nat, picked: seq<nat>, citations: seq<Citation>, e: PyError)
    requires |sm| == |chunks| && k < |nums| && InMap(nums[k], sm)
    requires picked == PickedUpTo(nums, k, sm) && CitationsFor(picked, sm, chunks, cite) == Ok(citations)
    requires sm[nums[k] - 1].source !in SourcesOf(picked, sm)
    requires cite(sm[nums[k] - 1], chunks[nums[k] - 1]) == Err(e)
    ensures CitationsFor(Picked(nums, sm), sm, chunks, cite) == Err(e)
  {
    PickedAdds(nums, sm, k);
    CitationsStepErr(picked, nums[k] - 1, sm, chunks, cite, citations, e);
    assert CitationsFor(PickedUpTo(nums, k + 1, sm), sm, chunks, cite) == Err(e);
    CitationsErrStays(nums, sm, chunks, cite, k + 1, |nums|);
    assert Picked(nums, sm) == PickedUpTo(nums, |nums|, sm);
  }

  /**
   * The loop of `_extract_citations`: it keeps the set of sources seen, and
   * appends a citation for each reference to a chunk whose source is new.
   */
  method CollectCitations(nums: seq<nat>, sourceMap: seq<SourceInfo>, chunks: seq<RetrievedChunk>, cite: CiteFn)
    returns (r: Result<seq<Citation>>)
    requires |sourceMap| == |chunks|
    ensures r == CitationsFor(Picked(nums, sourceMap), sourceMap, chunks, cite)
  {
    var citations: seq<Citation> := [];
    var seen: set<Json> := {};
    ghost var picked: seq<nat> := [];
    for k := 0 to |nums|
      invariant picked == PickedUpTo(nums, k, sourceMap)
      invariant forall x :: x in seen <==> x in SourcesOf(picked, sourceMap)
      invariant CitationsFor(picked, sourceMap, chunks, cite) == Ok(citations)
    {
      var n := nums[k];
      if 1 <= n <= |sourceMap| && sourceMap[n - 1].source !in seen {
        var idx: nat := n - 1;
        var c := cite(sourceMap[idx], chunks[idx]);
        if c.Err? {
          ExtractFails(nums, sourceMap, chunks, cite, k, picked, citations, c.error);
          return Err(c.error);
        }
        CitationsStepOk(picked, idx, sourceMap, chunks, cite, citations, c.value);
        SourcesOfSnoc(picked, idx, sourceMap);
        citations := citations + [c.value];
        seen := seen + {sourceMap[idx].source};
        picked := picked + [idx];
      }
    }
    r := Ok(citations);
  }

  /** `_extract_citations`: the references `[n]` in the answer, as numbers, pick the citations. */
  method ExtractCitations(responseText: string, sourceMap: seq<SourceInfo>, chunks: seq<RetrievedChunk>, cite: CiteFn)
    returns (r: Result<seq<Citation>>)
    requires |sourceMap| == |chunks|
    ensures r == CitationsFor(Picked(RefNumbers(Refs(responseText)), sourceMap), sourceMap, chunks, cite)
  {
    var refs := Refs(responseText);
    r := CollectCitations(RefNumbers(refs), sourceMap, chunks, cite);
  }

  /** The reply when the index returned nothing. */
  const NoContextReply := "I couldn't find specific information about that in the mortgage guidelines. "
    + "Could you rephrase your question or ask about HomeReady (Fannie Mae) or "
    + "Home Possible (Freddie Mac) eligibility requirements?"

  const TopK := 5

  /** The messages the model receives for a question, its history and the retrieved chunks. */
  function PromptFor(query: string, chunks: seq<RetrievedChunk>, history: seq<Turn>, repr: Json -> string): seq<Turn> {
    ModelMessages(history, UserPrompt(Join(ContextParts(chunks, repr), "\n---\n"), query))
  }

  /**
   * What `generate_response` gives once there is a client: the model's
   * error, or the answer with the citations of its references, or the
   * error building one of them.
   */
  function Answered(query: string, chunks: seq<RetrievedChunk>, history: seq<Turn>,
                    generate: seq<Turn> -> Result<string>, repr: Json -> string): (r: Result<(string, seq<Citation>)>)
    ensures r.Ok? <==> (
      && generate(PromptFor(query, chunks, history, repr)).Ok?
      && CitationsFor(Picked(RefNumbers(Refs(generate(PromptFor(query, chunks, history, repr)).value)), SourceMap(chunks)),
                      SourceMap(chunks), chunks, Cite(repr)).Ok?)
    ensures generate(PromptFor(query, chunks, history, repr)).Err? ==>
      r == Err(generate(PromptFor(query, chunks, history, repr)).error)
  {
    match generate(PromptFor(query, chunks, history, repr))
    case Err(e) => Err(e)
    case Ok(answer) =>
      match CitationsFor(Picked(RefNumbers(Refs(answer)), SourceMap(chunks)), SourceMap(chunks), chunks, Cite(repr))
      case Err(e) => Err(e)
      case Ok(citations) => Ok((answer, citations))
  }

  class RagService {
    const apiKey: string
    var hasClient: bool

    constructor (apiKey: string)
      ensures this.apiKey == apiKey && !hasClient
    {
      this.apiKey := apiKey;
      hasClient := false;
    }

    /** `_ensure_client`: the model client is created once, and only with a key. */
    method EnsureClient() returns (r: Result<bool>)
      modifies this
      ensures r.Ok? <==> old(hasClient) || apiKey != ""
      ensures r.Err? ==> r.error == ValueError && !hasClient
      ensures r.Ok? ==> hasClient
    {
      if !hasClient {
        if apiKey == "" {
          return Err(ValueError);
        }
        hasClient := true;
      }
      r := Ok(true);
    }

    /**
     * `generate_response`: the numbered context and the history window go to
     * the model, and the references in its answer become the citations.
     */
    method GenerateResponse(query: string, chunks: seq<RetrievedChunk>, history: seq<Turn>,
                            generate: seq<Turn> -> Result<string>, repr: Json -> string)
      returns (r: Result<(string, seq<Citation>)>)
      modifies this
      ensures !old(hasClient) && apiKey == "" ==> r == Err(ValueError)
      ensures old(hasClient) || apiKey != "" ==> r == Answered(query, chunks, history, generate, repr)
      ensures r.Ok? ==> generate(PromptFor(query, chunks, history, repr)) == Ok(r.value.0)
      ensures r.Ok? ==> CitationsFor(Picked(RefNumbers(Refs(r.value.0)), SourceMap(chunks)), SourceMap(chunks), chunks, Cite(repr)) == Ok(r.value.1)
    {
      var client := EnsureClient();
      if client.Err? {
        return Err(client.error);
      }
      var sourceMap, parts := BuildContext(chunks, repr);
      var messages := PromptFor(query, chunks, history, repr);
      var answer := generate(messages);
      if answer.Err? {
        return Err(answer.error);
      }
      var citations := ExtractCitations(answer.value, sourceMap, chunks, Cite(repr));
      if citations.Err? {
        return Err(citations.error);
      }
      r := Ok((answer.value, citations.value));
    }

    /**
     * `chat`: retrieves five chunks under the guide's filter; with none it
     * answers the fixed reply without citations and without the model,
     * otherwise it generates the answer.
     */
    method Chat(query: string, history: seq<Turn>, gseFilter: Option<string>,
                retrieve: (string, nat, Option<Json>) -> Result<seq<RetrievedChunk>>,
                generate: seq<Turn> -> Result<string>, repr: Json -> string)
      returns (r: Result<(string, seq<Citation>)>)
      modifies this
      ensures var found := retrieve(query, TopK, MetadataFilter(gseFilter));
        && (found.Err? ==> r == Err(found.error) && hasClient == old(hasClient))
        && (found == Ok([]) ==> r == Ok((NoContextReply, [])) && hasClient == old(hasClient))
        && (found.Ok? && found.value != [] && r.Ok? ==>
              generate(PromptFor(query, found.value, history, repr)) == Ok(r.value.0)
              && CitationsFor(Picked(RefNumbers(Refs(r.value.0)), SourceMap(found.value)), SourceMap(found.value), found.value, Cite(repr)) == Ok(r.value.1))
        && (found.Ok? && found.value != [] && !old(hasClient) && apiKey == "" ==> r == Err(ValueError))
        && (found.Ok? && found.value != [] && (old(hasClient) || apiKey != "") ==>
              r == Answered(query, found.value, history, generate, repr))
    {
      var found := retrieve(query, TopK, MetadataFilter(gseFilter));
      if found.Err? {
        return Err(found.error);
      }
      if |found.value| == 0 {
        return Ok((NoContextReply, []));
      }
      r := GenerateResponse(query, found.value, history, generate, repr);
    }
  }
}
