/**
 * How the fix finder turns the model's final text into records: the JSON
 * span is cut out of the text (code fences filtered first), and the untyped
 * analysis is coerced into enhanced fixes, fix sequences and a flat string
 * map, with the errors Python raises where a value escapes the coercion.
 */
module FixFinderNormalise {
  import opened Wrappers
  import opened Strings
  import opened JsonValue
  import LM = LoanModels
  import opened FixFinderModels

  /** The JSON library: `json.loads` on a text that may not parse, and `json.dumps`. */
  datatype Codec = Codec(loads: string -> Option<Dict>, dumps: Json -> string)

  // ---------------------------------------------------------------------------
  // _parse_final_response

  /** A line that opens or closes a code fence: `line.strip().startswith("```")`. */
  predicate IsFence(line: string) {
    StrippedStartsWith(line, "```")
  }

  /** `line.strip().startswith("{")`. */
  predicate OpensObject(line: string) {
    StrippedStartsWith(line, "{")
  }

  /** The lines the fence filter keeps from `lines`, entered inside a block or not. */
  function KeptLines(lines: seq<string>, inBlock: bool): seq<string> {
    if |lines| == 0 then []
    else if IsFence(lines[0]) then KeptLines(lines[1..], !inBlock)
    else (if inBlock || OpensObject(lines[0]) then [lines[0]] else []) + KeptLines(lines[1..], inBlock)
  }

  /** The text the span is searched in: with a fence anywhere, only the kept lines. */
  function Defenced(text: string): string {
    if Contains(text, "```") then Join(KeptLines(Split(text, '\n'), false), "\n") else text
  }

  /** From the first `{` to the last `}`, when the last one comes after the first. */
  function JsonSpan(text: string): (r: Option<string>)
    ensures r.Some? <==> 0 <= IndexOf(text, '{') < RFind(text, '}')
    ensures r.Some? ==> |r.value| >= 2 && r.value[0] == '{' && r.value[|r.value| - 1] == '}'
  {
    var start, end := IndexOf(text, '{'), RFind(text, '}') + 1;
    if start >= 0 && end > start then Some(text[start..end]) else None
  }

  /** What `_parse_final_response` returns: the parsed span, or the empty dict. */
  function ParsedResponse(text: string, codec: Codec): Dict {
    match JsonSpan(Defenced(text))
    case None => []
    case Some(span) => codec.loads(span).UnwrapOr([])
  }

  /** The fence filter of `_parse_final_response`: it scans the lines, toggling whether it is inside a block. */
  method FilterFences(lines: seq<string>) returns (kept: seq<string>)
    ensures kept == KeptLines(lines, false)
  {
    kept := [];
    var inBlock := false;
    var i := 0;
    while i < |lines|
      invariant 0 <= i <= |lines|
      invariant kept + KeptLines(lines[i..], inBlock) == KeptLines(lines, false)
    {
      ghost var rest := lines[i..];
      assert rest[0] == lines[i] && rest[1..] == lines[i + 1..];
      if IsFence(lines[i]) {
        inBlock := !inBlock;
      } else if inBlock || OpensObject(lines[i]) {
        kept := kept + [lines[i]];
      }
      i := i + 1;
    }
  }

  /** `_parse_final_response`: the span of the filtered text is parsed; a text without one, or that does not parse, gives the empty dict. */
  method ParseFinalResponse(text: string, codec: Codec) returns (r: Dict)
    ensures r == ParsedResponse(text, codec)
  {
    var t := text;
    if Contains(text, "```") {
      var kept := FilterFences(Split(text, '\n'));
      t := Join(kept, "\n");
    }
    assert t == Defenced(text);
    var start := IndexOf(t, '{');
    var end := RFind(t, '}') + 1;
    if start >= 0 && end > start {
      r := codec.loads(t[start..end]).UnwrapOr([]);
    } else {
      r := [];
    }
  }

  /** The filter never keeps a fence line, keeps only lines it was given, and always keeps a line that opens an object. */
  lemma {:induction false} KeptLinesSpec(lines: seq<string>, inBlock: bool)
    ensures forall x :: x in KeptLines(lines, inBlock) ==> x in lines && !IsFence(x)
    ensures forall x :: x in lines && OpensObject(x) && !IsFence(x) ==> x in KeptLines(lines, inBlock)
  {
    if |lines| > 0 {
      KeptLinesSpec(lines[1..], !inBlock);
      KeptLinesSpec(lines[1..], inBlock);
      assert forall x :: x in lines ==> x == lines[0] || x in lines[1..];
    }
  }

  /** Inside a block every line up to the next fence is kept. */
  lemma {:induction false} KeptBlock(body: seq<string>, rest: seq<string>)
    requires forall k :: 0 <= k < |body| ==> !IsFence(body[k])
    ensures KeptLines(body + rest, true) == body + KeptLines(rest, true)
  {
    if |body| > 0 {
      KeptBlock(body[1..], rest);
      assert (body + rest)[1..] == body[1..] + rest;
      assert body == [body[0]] + body[1..];
    } else {
      assert body + rest == rest;
    }
  }

  /** A fenced block whose body has no fence gives exactly its body. */
  lemma FencedBlock(fence: string, body: seq<string>, closing: string)
    requires IsFence(fence) && IsFence(closing)
    requires forall k :: 0 <= k < |body| ==> !IsFence(body[k])
    ensures KeptLines([fence] + body + [closing], false) == body
  {
    var lines := [fence] + body + [closing];
    assert lines[0] == fence && lines[1..] == body + [closing];
    assert KeptLines(lines, false) == KeptLines(body + [closing], true);
    KeptBlock(body, [closing]);
    assert [closing][1..] == [];
    assert KeptLines([closing], true) == KeptLines([], false);
  }

  /** Without a `{` that precedes a later `}`, the response is the empty dict. */
  lemma ParseWithoutBraces(text: string, codec: Codec)
    requires !(0 <= IndexOf(Defenced(text), '{') < RFind(Defenced(text), '}'))
    ensures ParsedResponse(text, codec) == []
  {
  }

  /** An unfenced text that is one object from its first to its last character is parsed whole. */
  lemma ParseWholeObject(text: string, codec: Codec)
    requires !Contains(text, "```") && |text| >= 2 && text[0] == '{' && text[|text| - 1] == '}'
    ensures ParsedResponse(text, codec) == codec.loads(text).UnwrapOr([])
  {
    assert IndexOf(text, '{') == 0;
    assert RFind(text, '}') == |text| - 1;
    assert text[0..|text|] == text;
  }

  // ---------------------------------------------------------------------------
  // _flatten_to_string_dict

  /** The string one value becomes: itself, its JSON text, its items joined by ", ", or `str(v)`. */
  function FlatValue(v: Json, codec: Codec, repr: Json -> string): (r: string)
    ensures v.JStr? ==> r == v.s
    ensures v.JObj? ==> r == codec.dumps(v)
  {
    match v
    case JStr(s) => s
    case JObj(_) => codec.dumps(v)
    case JArr(items) => Join(seq(|items|, i requires 0 <= i < |items| => PyStr(items[i], repr)), ", ")
    case _ => repr(v)
  }

  /** `_flatten_to_string_dict`: every entry of the dict, in order, with its value flattened; anything but a dict has no `items`. */
  method FlattenToStringDict(data: Json, codec: Codec, repr: Json -> string) returns (r: Result<seq<(string, string)>>)
    ensures r.Err? <==> !data.JObj?
    ensures r.Err? ==> r.error == AttributeError
    ensures r.Ok? ==> |r.value| == |Items(data.fields)|
    ensures r.Ok? ==> forall i :: 0 <= i < |r.value| ==>
      r.value[i] == (Items(data.fields)[i].0, FlatValue(Items(data.fields)[i].1, codec, repr))
  {
    if !data.JObj? {
      return Err(AttributeError);
    }
    var items := Items(data.fields);
    var result: seq<(string, string)> := [];
    var i := 0;
    while i < |items|
      invariant 0 <= i <= |items|
      invariant |result| == i
      invariant forall j :: 0 <= j < i ==> result[j] == (items[j].0, FlatValue(items[j].1, codec, repr))
    {
      result := result + [(items[i].0, FlatValue(items[i].1, codec, repr))];
      i := i + 1;
    }
    r := Ok(result);
  }

  /** The flattened map has one entry per key of the dict, so no key repeats. */
  lemma FlattenedKeysDistinct(data: Dict, flat: seq<(string, string)>)
    requires |flat| == |Items(data)| && forall i :: 0 <= i < |flat| ==> flat[i].0 == Items(data)[i].0
    ensures forall i, j :: 0 <= i < j < |flat| ==> flat[i].0 != flat[j].0
  {
    ItemsDistinct(data);
  }

  // ---------------------------------------------------------------------------
  // The builders' loops: one item from every dict entry, in order

  /** The number of dict entries, which are the ones the builders look at. */
  function DictCount(raws: seq<Json>): nat {
    if |raws| == 0 then 0 else DictCount(raws[..|raws| - 1]) + (if raws[|raws| - 1].JObj? then 1 else 0)
  }

  /** Every dict entry built from the dict and its position in `raws`; the first error stops the build. */
  function BuiltAt<T>(raws: seq<Json>, build: (Dict, nat) -> Result<T>): (r: Result<seq<T>>)
    ensures r.Ok? ==> |r.value| == DictCount(raws)
  {
    if |raws| == 0 then Ok([])
    else
      var n := |raws| - 1;
      match BuiltAt(raws[..n], build)
      case Err(e) => Err(e)
      case Ok(items) =>
        if !raws[n].JObj? then Ok(items)
        else
          match build(raws[n].fields, n)
          case Err(e) => Err(e)
          case Ok(x) => Ok(items + [x])
  }

  /** Every dict entry built from the dict and the number of items built before it. */
  function BuiltCounted<T>(raws: seq<Json>, build: (Dict, nat) -> Result<T>): (r: Result<seq<T>>)
    ensures r.Ok? ==> |r.value| == DictCount(raws)
  {
    if |raws| == 0 then Ok([])
    else
      var n := |raws| - 1;
      match BuiltCounted(raws[..n], build)
      case Err(e) => Err(e)
      case Ok(items) =>
        if !raws[n].JObj? then Ok(items)
        else
          match build(raws[n].fields, |items|)
          case Err(e) => Err(e)
          case Ok(x) => Ok(items + [x])
  }

  /** Like `BuiltCounted`, but an entry may build nothing, and then is not counted. */
  function BuiltKept<T>(raws: seq<Json>, build: (Dict, nat) -> Result<Option<T>>): (r: Result<seq<T>>)
    ensures r.Ok? ==> |r.value| <= DictCount(raws)
  {
    if |raws| == 0 then Ok([])
    else
      var n := |raws| - 1;
      match BuiltKept(raws[..n], build)
      case Err(e) => Err(e)
      case Ok(items) =>
        if !raws[n].JObj? then Ok(items)
        else
          match build(raws[n].fields, |items|)
          case Err(e) => Err(e)
          case Ok(None) => Ok(items)
          case Ok(Some(x)) => Ok(items + [x])
  }

  /** Once a prefix fails, the whole build fails with the same error. */
  lemma {:induction false} BuiltAtFails<T>(raws: seq<Json>, build: (Dict, nat) -> Result<T>, i: nat)
    requires i <= |raws| && BuiltAt(raws[..i], build).Err?
    ensures BuiltAt(raws, build) == BuiltAt(raws[..i], build)
  {
    if i < |raws| {
      assert raws[..|raws| - 1][..i] == raws[..i];
      BuiltAtFails(raws[..|raws| - 1], build, i);
    } else {
      assert raws[..i] == raws;
    }
  }

  lemma {:induction false} BuiltCountedFails<T>(raws: seq<Json>, build: (Dict, nat) -> Result<T>, i: nat)
    requires i <= |raws| && BuiltCounted(raws[..i], build).Err?
    ensures BuiltCounted(raws, build) == BuiltCounted(raws[..i], build)
  {
    if i < |raws| {
      assert raws[..|raws| - 1][..i] == raws[..i];
      BuiltCountedFails(raws[..|raws| - 1], build, i);
    } else {
      assert raws[..i] == raws;
    }
  }

  lemma {:induction false} BuiltKeptFails<T>(raws: seq<Json>, build: (Dict, nat) -> Result<Option<T>>, i: nat)
    requires i <= |raws| && BuiltKept(raws[..i], build).Err?
    ensures BuiltKept(raws, build) == BuiltKept(raws[..i], build)
  {
    if i < |raws| {
      assert raws[..|raws| - 1][..i] == raws[..i];
      BuiltKeptFails(raws[..|raws| - 1], build, i);
    } else {
      assert raws[..i] == raws;
    }
  }

  /** The loop of `_build_enhanced_fixes`: entries that are not dicts are skipped; a fix that raises stops the loop. */
  method BuildAt<T>(raws: seq<Json>, build: (Dict, nat) -> Result<T>) returns (r: Result<seq<T>>)
    ensures r == BuiltAt(raws, build)
  {
    var items: seq<T> := [];
    var i := 0;
    while i < |raws|
      invariant 0 <= i <= |raws|
      invariant BuiltAt(raws[..i], build) == Ok(items)
    {
      assert raws[..i + 1][..i] == raws[..i];
      if raws[i].JObj? {
        var x := build(raws[i].fields, i);
        if x.Err? {
          BuiltAtFails(raws, build, i + 1);
          return Err(x.error);
        }
        items := items + [x.value];
      }
      i := i + 1;
    }
    assert raws[..i] == raws;
    r := Ok(items);
  }

  /** The inner loop of `_build_fix_sequences`: each dict step is built with the count of steps before it. */
  method BuildCounted<T>(raws: seq<Json>, build: (Dict, nat) -> Result<T>) returns (r: Result<seq<T>>)
    ensures r == BuiltCounted(raws, build)
  {
    var items: seq<T> := [];
    var i := 0;
    while i < |raws|
      invariant 0 <= i <= |raws|
      invariant BuiltCounted(raws[..i], build) == Ok(items)
    {
      assert raws[..i + 1][..i] == raws[..i];
      if raws[i].JObj? {
        var x := build(raws[i].fields, |items|);
        if x.Err? {
          BuiltCountedFails(raws, build, i + 1);
          return Err(x.error);
        }
        items := items + [x.value];
      }
      i := i + 1;
    }
    assert raws[..i] == raws;
    r := Ok(items);
  }

  /** A list without any dict builds nothing. */
  lemma {:induction false} NoDictsBuildNothing<T>(raws: seq<Json>, build: (Dict, nat) -> Result<T>)
    requires forall k :: 0 <= k < |raws| ==> !raws[k].JObj?
    ensures BuiltAt(raws, build) == Ok([]) && BuiltCounted(raws, build) == Ok([])
  {
    if |raws| > 0 {
      NoDictsBuildNothing(raws[..|raws| - 1], build);
    }
  }

  // ---------------------------------------------------------------------------
  // _build_enhanced_fixes

  /** A difficulty given as one of the three literals is kept; anything else is "moderate". */
  function DifficultyOf(j: Json): (d: LM.Difficulty)
    ensures j.JStr? && j.s in {"easy", "moderate", "hard"} ==> LM.DifficultyName(d) == j.s
    ensures !(j.JStr? && j.s in {"easy", "moderate", "hard"}) ==> d == LM.Moderate
  {
    if j.JStr? && LM.DifficultyFromString(j.s).Some? then LM.DifficultyFromString(j.s).value else LM.Moderate
  }

  /** The snippet mentions one of the keywords, both lower-cased. */
  predicate Mentions(c: GuideCitation, keywords: seq<string>) {
    exists k :: 0 <= k < |keywords| && Contains(Lower(c.snippet), Lower(keywords[k]))
  }

  /** The citations that mention one of the keywords, in their order. */
  function Matching(cs: seq<GuideCitation>, keywords: seq<string>): (r: seq<GuideCitation>)
    ensures |r| <= |cs|
    ensures forall c :: c in r <==> c in cs && Mentions(c, keywords)
  {
    if |cs| == 0 then []
    else Matching(cs[..|cs| - 1], keywords) + (if Mentions(cs[|cs| - 1], keywords) then [cs[|cs| - 1]] else [])
  }

  /** The first five words. */
  function FirstWords(s: string): seq<string> {
    var w := Words(s);
    if |w| <= 5 then w else w[..5]
  }

  /** An unlock or trade-off value as a list: a string is one item (none when empty), another non-list no items. */
  function AsList(j: Json): (r: seq<Json>)
    ensures j.JArr? ==> r == j.items
    ensures j.JStr? ==> r == (if |j.s| > 0 then [j] else [])
  {
    match j
    case JArr(items) => items
    case JStr(s) => if |s| > 0 then [j] else []
    case _ => []
  }

  /** The items that are one of the two product names, in order. */
  function ProductFilter(items: seq<Json>): (r: seq<string>)
    ensures ProductsValid(r)
    ensures |r| <= |items|
    ensures forall p :: p in r <==> JStr(p) in items && p in LM.ProductNames
  {
    if |items| == 0 then []
    else
      var last := items[|items| - 1];
      var rest := ProductFilter(items[..|items| - 1]);
      assert forall x :: x in items <==> x in items[..|items| - 1] || x == last by {
        assert items == items[..|items| - 1] + [last];
      }
      rest + (if last.JStr? && last.s in LM.ProductNames then [last.s] else [])
  }

  /** `min(max(x, 0), 1)`. */
  function Clamp01(x: real): (r: real)
    ensures 0.0 <= r <= 1.0
    ensures 0.0 <= x <= 1.0 ==> r == x
  {
    if x < 0.0 then 0.0 else if x > 1.0 then 1.0 else x
  }

  /** `s[:n]` on a list. */
  function Prefix<T>(s: seq<T>, n: nat): (r: seq<T>)
    ensures |r| <= n && |r| <= |s| && r == s[..|r|]
    ensures |s| <= n ==> r == s
  {
    if |s| <= n then s else s[..n]
  }

  /**
   * One entry of `enhanced_fixes` at position `i`: difficulty and texts fall
   * back to defaults, citations are those whose snippet mentions one of the
   * first five words of the description, and the record is validated.
   */
  function EnhancedFixOf(fix: Dict, i: nat, cs: seq<GuideCitation>): (r: Result<EnhancedFixSuggestion>)
    ensures r.Ok? ==> r.value.Valid() && |r.value.citations| <= 3
  {
    var difficulty := DifficultyOf(GetOr(fix, "difficulty", JStr("moderate")));
    var rawDescription := GetOr(fix, "description", JStr(""));
    if |cs| > 0 && !rawDescription.JStr? then Err(AttributeError)
    else
      var cited := if |cs| == 0 then [] else Matching(cs, FirstWords(rawDescription.s));
      var unlocks := ProductFilter(AsList(Or(GetOr(fix, "unlocks_products", JArr([])), GetOr(fix, "products_unlocked", JArr([])))));
      var tradeOffs := JArr(AsList(GetOr(fix, "trade_offs", JArr([]))));
      var description := Or(Or(GetOr(fix, "description", JStr("")), GetOr(fix, "fix", JStr(""))), JStr("No description provided"));
      var impact := Or(Or(GetOr(fix, "impact", JStr("")), GetOr(fix, "quantified_impact", JStr(""))), JStr("Impact not specified"));
      var priority := GetOr(fix, "priority_order", GetOr(fix, "priority", JNum((i + 1) as real)));
      match PyFloat(GetOr(fix, "confidence", JNum(0.7)))
      case Err(e) => Err(e)
      case Ok(x) =>
        match PyInt(priority)
        case Err(e) => Err(e)
        case Ok(p) =>
          var timeline := Or(GetOr(fix, "estimated_timeline", JStr("Varies")), JStr("Varies"));
          if StrField(description).Ok? && StrField(impact).Ok? && StrField(timeline).Ok? && StrListField(tradeOffs).Ok? then
            MakeEnhancedFix(description.s, impact.s, difficulty, Clamp01(x), p, timeline.s, unlocks, Prefix(cited, 3),
                            StrListField(tradeOffs).value)
          else Err(ValidationError)
  }

  /**
   * A fix is refused for a description that is not a string when there are
   * citations to match, or for a confidence that cannot be a number.
   */
  lemma EnhancedFixRefused(fix: Dict, i: nat, cs: seq<GuideCitation>)
    ensures |cs| > 0 && !GetOr(fix, "description", JStr("")).JStr? ==> EnhancedFixOf(fix, i, cs) == Err(AttributeError)
    ensures (|cs| == 0 || GetOr(fix, "description", JStr("")).JStr?) && (GetOr(fix, "confidence", JNum(0.7)).JNull? || GetOr(fix, "confidence", JNum(0.7)).JArr? || GetOr(fix, "confidence", JNum(0.7)).JObj?)
      ==> EnhancedFixOf(fix, i, cs) == Err(TypeError)
  {
  }

  /**
   * A built fix keeps a known difficulty or takes "moderate", clamps its
   * confidence (0.7 when absent), cites only what it was given, and has no
   * compensating factors.
   */
  lemma EnhancedFixBuilt(fix: Dict, i: nat, cs: seq<GuideCitation>)
    requires EnhancedFixOf(fix, i, cs).Ok?
    ensures EnhancedFixOf(fix, i, cs).value.difficulty == DifficultyOf(GetOr(fix, "difficulty", JStr("moderate")))
    ensures AsNumber(GetOr(fix, "confidence", JNum(0.7))).Some? ==>
      EnhancedFixOf(fix, i, cs).value.confidence == Clamp01(AsNumber(GetOr(fix, "confidence", JNum(0.7))).value)
    ensures Get(fix, "confidence").None? ==> EnhancedFixOf(fix, i, cs).value.confidence == 0.7
    ensures forall c :: c in EnhancedFixOf(fix, i, cs).value.citations ==> c in cs
    ensures |cs| == 0 ==> EnhancedFixOf(fix, i, cs).value.citations == []
    ensures EnhancedFixOf(fix, i, cs).value.compensatingFactors == []
  {
  }

  /** A single product name given as a string unlocks exactly that product. */
  lemma UnlockString(fix: Dict, i: nat, cs: seq<GuideCitation>, p: string)
    requires p in LM.ProductNames
    requires GetOr(fix, "unlocks_products", JArr([])) == JStr(p)
    requires EnhancedFixOf(fix, i, cs).Ok?
    ensures EnhancedFixOf(fix, i, cs).value.unlocksProducts == [p]
  {
    assert AsList(JStr(p)) == [JStr(p)];
    assert ProductFilter([JStr(p)]) == ProductFilter([]) + [p];
  }

  /** The fix each entry builds, from its dict and its position. */
  function FixBuilder(cs: seq<GuideCitation>): (Dict, nat) -> Result<EnhancedFixSuggestion> {
    (fix: Dict, i: nat) => EnhancedFixOf(fix, i, cs)
  }

  /** Every built fix passes the record's constraints and carries at most three citations. */
  lemma {:induction false} BuiltFixesValid(raws: seq<Json>, cs: seq<GuideCitation>)
    requires BuiltAt(raws, FixBuilder(cs)).Ok?
    ensures forall k :: 0 <= k < |BuiltAt(raws, FixBuilder(cs)).value| ==>
      BuiltAt(raws, FixBuilder(cs)).value[k].Valid() && |BuiltAt(raws, FixBuilder(cs)).value[k].citations| <= 3
  {
    if |raws| > 0 {
      BuiltFixesValid(raws[..|raws| - 1], cs);
    }
  }

  /** `_build_enhanced_fixes`: `enhanced_fixes` must be iterable. */
  method BuildEnhancedFixes(analysis: Dict, cs: seq<GuideCitation>) returns (r: Result<seq<EnhancedFixSuggestion>>)
    ensures Iterate(GetOr(analysis, "enhanced_fixes", JArr([]))).Err? ==> r == Err(TypeError)
    ensures Iterate(GetOr(analysis, "enhanced_fixes", JArr([]))).Ok? ==>
      r == BuiltAt(Iterate(GetOr(analysis, "enhanced_fixes", JArr([]))).value, FixBuilder(cs))
  {
    var raw := Iterate(GetOr(analysis, "enhanced_fixes", JArr([])));
    if raw.Err? {
      return Err(TypeError);
    }
    r := BuildAt(raw.value, FixBuilder(cs));
  }

  // ---------------------------------------------------------------------------
  // _build_fix_sequences

  /** An effort given as one of the four literals is kept; anything else is "medium". */
  function EffortOf(j: Json): (e: Effort)
    ensures j.JStr? && j.s in {"low", "medium", "high", "very_high"} ==> EffortName(e) == j.s
    ensures !(j.JStr? && j.s in {"low", "medium", "high", "very_high"}) ==> e == Medium
  {
    if j.JStr? && EffortFromString(j.s).Some? then EffortFromString(j.s).value else Medium
  }

  /** One dict step of a sequence, the `count`-th built so far: fields are validated as they are, without coercion. */
  function StepOf(step: Dict, count: nat): (r: Result<EnhancedFixSuggestion>)
    ensures r.Ok? ==> r.value.Valid()
    ensures r.Ok? ==> r.value.unlocksProducts == [] && r.value.citations == [] && r.value.tradeOffs == []
  {
    var difficulty := DifficultyOf(GetOr(step, "difficulty", JStr("moderate")));
    match Clamp(GetOr(step, "confidence", JNum(0.7)), 0.0, 1.0)
    case Err(e) => Err(e)
    case Ok(confidence) =>
      var description := StrField(GetOr(step, "description", JStr("")));
      var impact := StrField(GetOr(step, "impact", JStr("")));
      var priority := IntField(GetOr(step, "priority_order", JNum((count + 1) as real)));
      var timeline := StrField(GetOr(step, "estimated_timeline", JStr("Varies")));
      if description.Ok? && impact.Ok? && priority.Ok? && timeline.Ok? then
        MakeEnhancedFix(description.value, impact.value, difficulty, confidence, priority.value, timeline.value, [], [], [])
      else Err(ValidationError)
  }

  /** A step without a priority takes its position among the built steps, counted from one; its confidence is clamped, 0.7 when absent. */
  lemma StepSpec(step: Dict, count: nat)
    ensures StepOf(step, count).Ok? ==> StepOf(step, count).value.difficulty == DifficultyOf(GetOr(step, "difficulty", JStr("moderate")))
    ensures Get(step, "priority_order").None? && StepOf(step, count).Ok? ==> StepOf(step, count).value.priorityOrder == count + 1
    ensures Get(step, "confidence").None? && StepOf(step, count).Ok? ==> StepOf(step, count).value.confidence == 0.7
    ensures AsNumber(GetOr(step, "confidence", JNum(0.7))).None? ==> StepOf(step, count) == Err(TypeError)
  {
  }

  function StepBuilder(): (Dict, nat) -> Result<EnhancedFixSuggestion> {
    (step: Dict, count: nat) => StepOf(step, count)
  }

  /** The rest of one sequence entry once its products and steps are known: `None` when no step was built. */
  function SequenceFrom(sd: Dict, count: nat, products: seq<string>, steps: seq<EnhancedFixSuggestion>): (r: Result<Option<FixSequence>>)
    ensures r.Ok? && r.value.Some? ==> r.value.value.Valid() && r.value.value.steps == steps && steps != []
    ensures steps == [] ==> r == Ok(None)
  {
    if |steps| == 0 then Ok(None)
    else
      var effort := EffortOf(GetOr(sd, "total_effort", JStr("medium")));
      match Clamp(GetOr(sd, "effort_vs_benefit_score", JNum(5.0)), 0.0, 10.0)
      case Err(e) => Err(e)
      case Ok(score) =>
        var name := StrField(GetOr(sd, "sequence_name", JStr("Path " + NatToString(count + 1))));
        var description := StrField(GetOr(sd, "description", JStr("")));
        var timeline := StrField(GetOr(sd, "estimated_total_timeline", JStr("Varies")));
        if name.Ok? && description.Ok? && timeline.Ok? then
          match MakeFixSequence(name.value, description.value, steps, effort, score, products, timeline.value)
          case Ok(s) => Ok(Some(s))
          case Err(e) => Err(e)
        else Err(ValidationError)
  }

  /**
   * One dict entry of `fix_sequences`, the `count`-th kept so far: its
   * products and steps must be iterable; `None` when it has no dict step.
   */
  function SequenceOf(sd: Dict, count: nat): (r: Result<Option<FixSequence>>)
  {
    match Iterate(GetOr(sd, "products_unlocked", JArr([])))
    case Err(e) => Err(e)
    case Ok(unlocks) =>
      match Iterate(GetOr(sd, "steps", JArr([])))
      case Err(e) => Err(e)
      case Ok(rawSteps) =>
        match BuiltCounted(rawSteps, StepBuilder())
        case Err(e) => Err(e)
        case Ok(steps) => SequenceFrom(sd, count, ProductFilter(unlocks), steps)
  }

  /**
   * A sequence whose steps hold no dict is dropped; a kept one has steps,
   * takes a known effort or "medium", its score clamped into `[0, 10]` (5
   * when absent), and "Path n" as its name when none is given.
   */
  lemma SequenceSpec(sd: Dict, count: nat)
    ensures Iterate(GetOr(sd, "products_unlocked", JArr([]))).Ok? && Iterate(GetOr(sd, "steps", JArr([]))).Ok?
      && (forall k :: 0 <= k < |Iterate(GetOr(sd, "steps", JArr([]))).value| ==> !Iterate(GetOr(sd, "steps", JArr([]))).value[k].JObj?)
      ==> SequenceOf(sd, count) == Ok(None)
    ensures SequenceOf(sd, count).Ok? && SequenceOf(sd, count).value.Some? ==>
      var sq := SequenceOf(sd, count).value.value;
      && sq.Valid() && |sq.steps| > 0
      && sq.totalEffort == EffortOf(GetOr(sd, "total_effort", JStr("medium")))
      && sq.effortVsBenefitScore == Clamp(GetOr(sd, "effort_vs_benefit_score", JNum(5.0)), 0.0, 10.0).value
      && (Get(sd, "effort_vs_benefit_score").None? ==> sq.effortVsBenefitScore == 5.0)
      && (Get(sd, "sequence_name").None? ==> sq.sequenceName == "Path " + NatToString(count + 1))
  {
    var raw := Iterate(GetOr(sd, "steps", JArr([])));
    if raw.Ok? && forall k :: 0 <= k < |raw.value| ==> !raw.value[k].JObj? {
      NoDictsBuildNothing(raw.value, StepBuilder());
    }
  }

  function SequenceBuilder(): (Dict, nat) -> Result<Option<FixSequence>> {
    (sd: Dict, count: nat) => SequenceOf(sd, count)
  }

  /** Every kept sequence passes the record's constraints and has at least one step. */
  lemma {:induction false} BuiltSequencesValid(raws: seq<Json>)
    requires BuiltKept(raws, SequenceBuilder()).Ok?
    ensures forall k :: 0 <= k < |BuiltKept(raws, SequenceBuilder()).value| ==>
      BuiltKept(raws, SequenceBuilder()).value[k].Valid() && |BuiltKept(raws, SequenceBuilder()).value[k].steps| > 0
  {
    if |raws| > 0 {
      var n := |raws| - 1;
      BuiltSequencesValid(raws[..n]);
      if raws[n].JObj? {
        SequenceSpec(raws[n].fields, |BuiltKept(raws[..n], SequenceBuilder()).value|);
      }
    }
  }

  /** `_build_fix_sequences`: `fix_sequences` must be iterable; entries that are not dicts are skipped. */
  method BuildFixSequences(analysis: Dict) returns (r: Result<seq<FixSequence>>)
    ensures Iterate(GetOr(analysis, "fix_sequences", JArr([]))).Err? ==> r == Err(TypeError)
    ensures Iterate(GetOr(analysis, "fix_sequences", JArr([]))).Ok? ==>
      r == BuiltKept(Iterate(GetOr(analysis, "fix_sequences", JArr([]))).value, SequenceBuilder())
  {
    var raw := Iterate(GetOr(analysis, "fix_sequences", JArr([])));
    if raw.Err? {
      return Err(TypeError);
    }
    var raws := raw.value;
    var seqs: seq<FixSequence> := [];
    var i := 0;
    while i < |raws|
      invariant 0 <= i <= |raws|
      invariant BuiltKept(raws[..i], SequenceBuilder()) == Ok(seqs)
    {
      assert raws[..i + 1][..i] == raws[..i];
      if raws[i].JObj? {
        var sd := raws[i].fields;
        var s := BuildSequence(sd, |seqs|);
        if s.Err? {
          BuiltKeptFails(raws, SequenceBuilder(), i + 1);
          return Err(s.error);
        }
        if s.value.Some? {
          seqs := seqs + [s.value.value];
        }
      }
      i := i + 1;
    }
    assert raws[..i] == raws;
    r := Ok(seqs);
  }

  /** The body of the outer loop of `_build_fix_sequences` for one dict entry, with the inner loop over its steps. */
  method BuildSequence(sd: Dict, count: nat) returns (r: Result<Option<FixSequence>>)
    ensures r == SequenceBuilder()(sd, count)
  {
    var unlocks := Iterate(GetOr(sd, "products_unlocked", JArr([])));
    if unlocks.Err? {
      return Err(unlocks.error);
    }
    var rawSteps := Iterate(GetOr(sd, "steps", JArr([])));
    if rawSteps.Err? {
      return Err(rawSteps.error);
    }
    var steps := BuildCounted(rawSteps.value, StepBuilder());
    if steps.Err? {
      return Err(steps.error);
    }
    r := SequenceFrom(sd, count, ProductFilter(unlocks.value), steps.value);
  }
}
