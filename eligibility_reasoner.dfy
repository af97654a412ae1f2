/**
 * The retrieval-augmented eligibility reasoner: the catalogue of guide
 * queries, the first-wins merge of what the index returns for them, the
 * split of the excerpts by guide in the prompt, the removal of a Markdown
 * fence around the model's answer, and the conversion of the answer's JSON
 * into product results. The embedding and index search, the model, the JSON
 * parser and `repr` are parameters.
 */
module EligibilityReasoner {
  import opened Wrappers
  import opened Strings
  import opened JsonValue
  import opened Sorting
  import opened Display
  import opened LoanModels
  import Embedding
  import ModelAnswer

  datatype Product = HomeReady | HomePossible

  /** The name a product goes by in the templates and the results. */
  function ProductName(p: Product): string {
    match p
    case HomeReady => "HomeReady"
    case HomePossible => "Home Possible"
  }

  /** The guide that defines a product. */
  function ProductGse(p: Product): string {
    match p
    case HomeReady => "fannie_mae"
    case HomePossible => "freddie_mac"
  }

  /**
   * A template of the query catalogue: the product it names first, then its
   * words, then `{property_type}` when the template ends with that field.
   * The two templates of a category differ only in the product.
   */
  datatype Template = Template(product: Product, words: string, withPropertyType: bool)

  const PropertyTypeField := "{property_type}"

  /** The template as written in the catalogue. */
  function TemplateText(t: Template): string {
    ProductName(t.product) + " " + t.words + (if t.withPropertyType then " " + PropertyTypeField else "")
  }

  /** `template.format(property_type=label)`. */
  function Format(t: Template, typeLabel: string): string {
    ProductName(t.product) + " " + t.words + (if t.withPropertyType then " " + typeLabel else "")
  }

  /**
   * The index filter a template's query runs under: `fannie_mae` when the
   * template mentions HomeReady, `freddie_mac` otherwise. Only the HomeReady
   * templates mention it, as they open with it.
   */
  function TemplateGse(t: Template): string {
    ProductGse(t.product)
  }

  /** A HomeReady template mentions HomeReady. */
  lemma HomeReadyTemplateMentionsIt(t: Template)
    requires t.product == HomeReady
    ensures Contains(TemplateText(t), "HomeReady") && TemplateGse(t) == "fannie_mae"
  {
    StartsWithConcat("HomeReady", TemplateText(t)[9..]);
    assert TemplateText(t) == "HomeReady" + TemplateText(t)[9..];
    ContainsAt(TemplateText(t), "HomeReady", 0);
  }

  /** A category of `ELIGIBILITY_QUERIES`: its name, its words, and whether it names the property type. */
  datatype Category = Category(name: string, words: string, withPropertyType: bool)

  /** The category's templates, HomeReady first. */
  function Templates(c: Category): seq<Template> {
    [Template(HomeReady, c.words, c.withPropertyType), Template(HomePossible, c.words, c.withPropertyType)]
  }

  const CreditWords := "minimum credit score requirements eligibility"
  const LtvWords := "maximum LTV loan-to-value ratio requirements"
  const DtiWords := "maximum DTI debt-to-income ratio requirements"
  const OccupancyWords := "occupancy requirements primary residence"
  const PropertyTypeWords := "eligible property types"
  const IncomeLimitWords := "income limits area median income AMI"

  /** `ELIGIBILITY_QUERIES`, in its insertion order. */
  const Catalogue: seq<Category> := [
    Category("credit_score", CreditWords, false),
    Category("ltv", LtvWords, true),
    Category("dti", DtiWords, false),
    Category("occupancy", OccupancyWords, false),
    Category("property_type", PropertyTypeWords, true),
    Category("income_limit", IncomeLimitWords, false)
  ]

  /** One query of the batch: its category, its text and the guide it is filtered to. */
  datatype GuideQuery = GuideQuery(category: string, query: string, gse: string)

  /** The query of template `j` of category `i` of a catalogue for a property-type label. */
  function QueryOf(catalogue: seq<Category>, typeLabel: string, i: nat, j: nat): GuideQuery
    requires i < |catalogue| && j < 2
  {
    var c := catalogue[i];
    var t := Templates(c)[j];
    GuideQuery(c.name, Format(t, typeLabel), TemplateGse(t))
  }

  /** The label the queries use for a property type: `property_type.replace("_", " ")`. */
  function TypeLabel(propertyType: string): string {
    ReplaceChar(propertyType, '_', ' ')
  }

  /** A catalogue expanded for a property type: query `k` is template `k % 2` of category `k / 2`. */
  function QueriesFor(catalogue: seq<Category>, propertyType: string): seq<GuideQuery> {
    seq(2 * |catalogue|, k requires 0 <= k < 2 * |catalogue| => QueryOf(catalogue, TypeLabel(propertyType), k / 2, k % 2))
  }

  /** The queries `retrieve_eligibility_context` runs. */
  function Queries(propertyType: string): seq<GuideQuery> {
    QueriesFor(Catalogue, propertyType)
  }

  /** The loop of `retrieve_eligibility_context` that expands the catalogue, in the catalogue's order. */
  method BuildQueries(catalogue: seq<Category>, propertyType: string) returns (queries: seq<GuideQuery>)
    ensures queries == QueriesFor(catalogue, propertyType)
  {
    var typeLabel := ReplaceChar(propertyType, '_', ' ');
    queries := [];
    for i := 0 to |catalogue|
      invariant |queries| == 2 * i
      invariant forall a, b :: 0 <= a < i && 0 <= b < 2 ==> queries[2 * a + b] == QueryOf(catalogue, typeLabel, a, b)
    {
      var c := catalogue[i];
      var templates := Templates(c);
      for j := 0 to |templates|
        invariant |queries| == 2 * i + j
        invariant forall a, b :: 0 <= a < i && 0 <= b < 2 ==> queries[2 * a + b] == QueryOf(catalogue, typeLabel, a, b)
        invariant forall b :: 0 <= b < j ==> queries[2 * i + b] == QueryOf(catalogue, typeLabel, i, b)
      {
        var t := templates[j];
        queries := queries + [GuideQuery(c.name, Format(t, typeLabel), TemplateGse(t))];
      }
    }
    forall k | 0 <= k < 2 * |catalogue| ensures queries[k] == QueryOf(catalogue, typeLabel, k / 2, k % 2) {
      assert k == 2 * (k / 2) + k % 2;
    }
  }

  /**
   * The catalogue gives twelve queries, alternately filtered to Fannie Mae
   * and Freddie Mac; each is its template with the property type's label,
   * underscores read as spaces, in place of `{property_type}`.
   */
  lemma QueriesShape(propertyType: string)
    ensures |Queries(propertyType)| == 12
    ensures forall k :: 0 <= k < 12 ==> Queries(propertyType)[k].gse == (if k % 2 == 0 then "fannie_mae" else "freddie_mac")
    ensures forall k :: 0 <= k < 12 ==> Queries(propertyType)[k].category == Catalogue[k / 2].name
    ensures forall k :: 0 <= k < 12 ==>
      var c := Catalogue[k / 2];
      Queries(propertyType)[k].query == ProductName(if k % 2 == 0 then HomeReady else HomePossible) + " " + c.words
        + (if c.withPropertyType then " " + TypeLabel(propertyType) else "")
  {
  }

  /** Only the LTV and property-type queries carry the property type, and none keeps an underscore from it. */
  lemma QueriesNamePropertyType(propertyType: string)
    ensures forall k :: 0 <= k < 12 ==> (Catalogue[k / 2].withPropertyType <==> k / 2 == 1 || k / 2 == 4)
    ensures '_' !in TypeLabel(propertyType)
  {
    forall k | 0 <= k < 12 ensures Catalogue[k / 2].withPropertyType <==> k / 2 == 1 || k / 2 == 4 {
      var i := k / 2;
      if i == 0 {} else if i == 1 {} else if i == 2 {} else if i == 3 {} else if i == 4 {} else {}
    }
  }

  /** What the index returns for a query: the chunk id, its score when it has one, and its metadata. */
  datatype GuideChunk = GuideChunk(id: string, score: Option<real>, metadata: Dict)

  /** One row of a query's results: the query, its guide filter and a chunk. */
  datatype Hit = Hit(query: string, gse: string, chunk: GuideChunk)

  const TopKPerQuery := 3

  /** The index filter `{"gse": {"$eq": gse}}`. */
  function GseFilter(gse: string): Json {
    JObj([("gse", JObj([("$eq", JStr(gse))]))])
  }

  /** The embedding and index query for one query text, top-k and filter. */
  type Search = (string, nat, Json) -> Result<seq<GuideChunk>>

  /** `run_query`: the query's hits, or none when embedding or searching raises. */
  function RunQuery(search: Search, q: GuideQuery): (hits: seq<Hit>)
    ensures search(q.query, TopKPerQuery, GseFilter(q.gse)).Err? ==> hits == []
    ensures search(q.query, TopKPerQuery, GseFilter(q.gse)).Ok? ==>
      var found := search(q.query, TopKPerQuery, GseFilter(q.gse)).value;
      |hits| == |found| && forall i :: 0 <= i < |hits| ==> hits[i] == Hit(q.query, q.gse, found[i])
  {
    match search(q.query, TopKPerQuery, GseFilter(q.gse))
    case Err(_) => []
    case Ok(found) => seq(|found|, i requires 0 <= i < |found| => Hit(q.query, q.gse, found[i]))
  }

  /** A `RAGRetrieval` for the demo panel. */
  datatype RagRetrieval = RagRetrieval(query: string, sectionId: string, sectionTitle: string, gse: string,
                                       relevance: real, snippet: string)

  const DefaultScore := 0.5
  const DefaultTitle := "GSE Guide Section"
  const SnippetLength := 300

  /** `min(chunk.get("score", 0.5), 1.0)`. */
  function Relevance(c: GuideChunk): (r: real)
    ensures r <= 1.0
    ensures c.score.None? ==> r == DefaultScore
    ensures c.score.Some? ==> r == (if c.score.value > 1.0 then 1.0 else c.score.value)
  {
    var s := c.score.UnwrapOr(DefaultScore);
    if 1.0 < s then 1.0 else s
  }

  /**
   * The retrieval of a new hit: its section or else the chunk id, its title,
   * its guide or else the query's, the relevance, and the first 300
   * characters of its text. A text that is neither a string nor a list
   * cannot be sliced; the fields must suit the model's types, the guide must
   * name one of the two and the relevance must not be negative.
   */
  function RetrievalOf(h: Hit): Result<RagRetrieval> {
    var md := h.chunk.metadata;
    var section := GetOr(md, "section", JStr(h.chunk.id));
    var title := GetOr(md, "title", JStr(DefaultTitle));
    var gse := GetOr(md, "gse", JStr(h.gse));
    var text := GetOr(md, "text", JStr(""));
    var relevance := Relevance(h.chunk);
    if !text.JStr? && !text.JArr? then Err(TypeError)
    else if !section.JStr? || !title.JStr? || !gse.JStr? || gse.s !in GseNames || relevance < 0.0 || !text.JStr? then
      Err(ValidationError)
    else Ok(RagRetrieval(h.query, section.s, title.s, gse.s, relevance, Take(text.s, SnippetLength)))
  }

  /** A retrieval's relevance lies in `[0, 1]`, its guide is one of the two and its snippet is at most 300 characters. */
  lemma RetrievalBounds(h: Hit)
    requires RetrievalOf(h).Ok?
    ensures var r := RetrievalOf(h).value;
      && 0.0 <= r.relevance <= 1.0 && r.gse in GseNames && |r.snippet| <= SnippetLength
      && r.relevance == Relevance(h.chunk) && r.query == h.query
      && (Get(h.chunk.metadata, "section").None? ==> r.sectionId == h.chunk.id)
      && (Get(h.chunk.metadata, "gse").None? ==> r.gse == h.gse)
  {
  }

  /** The state of the merge: the ids seen, the chunks kept and their retrievals. */
  datatype Merged = Merged(seen: set<string>, raw: seq<GuideChunk>, retrievals: seq<RagRetrieval>)

  const NothingMerged := Merged({}, [], [])

  /** Builds the retrieval of a hit. */
  type Builder = Hit -> Result<RagRetrieval>

  /** One hit: skipped when its id was seen, otherwise recorded with its retrieval. */
  function MergeStep(m: Merged, h: Hit, build: Builder): Result<Merged> {
    if h.chunk.id in m.seen then Ok(m)
    else
      match build(h)
      case Err(e) => Err(e)
      case Ok(r) => Ok(Merged(m.seen + {h.chunk.id}, m.raw + [h.chunk], m.retrievals + [r]))
  }

  /** The merge of the hits from state `m` on, or the first error building a retrieval. */
  function MergeFrom(m: Merged, hits: seq<Hit>, build: Builder): Result<Merged>
    decreases |hits|
  {
    if |hits| == 0 then Ok(m)
    else
      match MergeStep(m, hits[0], build)
      case Err(e) => Err(e)
      case Ok(next) => MergeFrom(next, hits[1..], build)
  }

  /** The hits whose ids are neither in `seen` nor earlier in the hits: the first occurrence of each new id. */
  function FirstHits(seen: set<string>, hits: seq<Hit>): (r: seq<Hit>)
    ensures |r| <= |hits|
    decreases |hits|
  {
    if |hits| == 0 then []
    else if hits[0].chunk.id in seen then FirstHits(seen, hits[1..])
    else [hits[0]] + FirstHits(seen + {hits[0].chunk.id}, hits[1..])
  }

  /** The ids of some hits. */
  function HitIds(hits: seq<Hit>): set<string> {
    set h | h in hits :: h.chunk.id
  }

  /** The chunks of some hits. */
  function HitChunks(hits: seq<Hit>): (r: seq<GuideChunk>)
    ensures |r| == |hits| && forall i :: 0 <= i < |hits| ==> r[i] == hits[i].chunk
  {
    seq(|hits|, i requires 0 <= i < |hits| => hits[i].chunk)
  }

  /** The retrievals of some hits, in order, or the first error building one. */
  function BuildAll(hits: seq<Hit>, build: Builder): (r: Result<seq<RagRetrieval>>)
    ensures r.Ok? <==> forall i :: 0 <= i < |hits| ==> build(hits[i]).Ok?
    ensures r.Ok? ==> |r.value| == |hits| && forall i :: 0 <= i < |hits| ==> Ok(r.value[i]) == build(hits[i])
    ensures r.Err? ==> exists i :: 0 <= i < |hits| && build(hits[i]) == Err(r.error) && forall j :: 0 <= j < i ==> build(hits[j]).Ok?
    decreases |hits|
  {
    if |hits| == 0 then Ok([])
    else
      match build(hits[0])
      case Err(e) => Err(e)
      case Ok(x) =>
        var rest := BuildAll(hits[1..], build);
        assert forall i :: 0 < i < |hits| ==> hits[i] == hits[1..][i - 1];
        match rest
        case Err(e) =>
          ghost var i :| 0 <= i < |hits[1..]| && build(hits[1..][i]) == Err(e) && forall j :: 0 <= j < i ==> build(hits[1..][j]).Ok?;
          assert build(hits[i + 1]) == Err(e);
          Err(e)
        case Ok(rs) => Ok([x] + rs)
  }

  /**
   * What the merge comes to from state `m`: the ids of all the hits are
   * seen, and the first hit of each new id is kept with its retrieval, or
   * the first error building one of those.
   */
  function MergeOutcome(m: Merged, hits: seq<Hit>, build: Builder): Result<Merged> {
    var firsts := FirstHits(m.seen, hits);
    match BuildAll(firsts, build)
    case Err(e) => Err(e)
    case Ok(rs) => Ok(Merged(m.seen + HitIds(hits), m.raw + HitChunks(firsts), m.retrievals + rs))
  }

  /** The hit-by-hit merge is the first-wins merge. */
  lemma {:induction false} MergeKeepsFirstHits(m: Merged, hits: seq<Hit>, build: Builder)
    ensures MergeFrom(m, hits, build) == MergeOutcome(m, hits, build)
    decreases |hits|
  {
    if |hits| == 0 {
      assert HitIds(hits) == {};
      assert m.seen + {} == m.seen && m.raw + [] == m.raw && m.retrievals + [] == m.retrievals;
    } else {
      var h := hits[0];
      if h.chunk.id in m.seen {
        MergeKeepsFirstHits(m, hits[1..], build);
        MergeSkipsSeen(m, hits, build);
      } else if build(h).Err? {
        MergeStopsAtError(m, hits, build);
      } else {
        var next := Merged(m.seen + {h.chunk.id}, m.raw + [h.chunk], m.retrievals + [build(h).value]);
        MergeKeepsFirstHits(next, hits[1..], build);
        MergeKeepsNew(m, hits, build);
      }
    }
  }

  /** The ids of a non-empty list of hits: the first one's and the rest's. */
  lemma HitIdsCons(hits: seq<Hit>)
    requires |hits| > 0
    ensures HitIds(hits) == {hits[0].chunk.id} + HitIds(hits[1..])
  {
    assert hits == [hits[0]] + hits[1..];
  }

  /** A hit whose id was seen leaves the merge as it would be without it. */
  lemma MergeSkipsSeen(m: Merged, hits: seq<Hit>, build: Builder)
    requires |hits| > 0 && hits[0].chunk.id in m.seen
    requires MergeFrom(m, hits[1..], build) == MergeOutcome(m, hits[1..], build)
    ensures MergeFrom(m, hits, build) == MergeOutcome(m, hits, build)
  {
    HitIdsCons(hits);
    assert m.seen + HitIds(hits) == m.seen + HitIds(hits[1..]);
  }

  /** A new hit whose retrieval cannot be built ends the merge with that error. */
  lemma MergeStopsAtError(m: Merged, hits: seq<Hit>, build: Builder)
    requires |hits| > 0 && hits[0].chunk.id !in m.seen && build(hits[0]).Err?
    ensures MergeFrom(m, hits, build) == MergeOutcome(m, hits, build)
  {
    var firsts := FirstHits(m.seen, hits);
    assert firsts[0] == hits[0];
  }

  /** A new hit whose retrieval is built is recorded, and the merge goes on from there. */
  lemma MergeKeepsNew(m: Merged, hits: seq<Hit>, build: Builder)
    requires |hits| > 0 && hits[0].chunk.id !in m.seen && build(hits[0]).Ok?
    requires var h := hits[0];
      var next := Merged(m.seen + {h.chunk.id}, m.raw + [h.chunk], m.retrievals + [build(h).value]);
      MergeFrom(next, hits[1..], build) == MergeOutcome(next, hits[1..], build)
    ensures MergeFrom(m, hits, build) == MergeOutcome(m, hits, build)
  {
    var h := hits[0];
    var next := Merged(m.seen + {h.chunk.id}, m.raw + [h.chunk], m.retrievals + [build(h).value]);
    assert MergeFrom(m, hits, build) == MergeFrom(next, hits[1..], build);
    OutcomeKeepsNew(m, hits, build);
  }

  /** The first-wins merge of a new hit whose retrieval is built, from the state that records it. */
  lemma OutcomeKeepsNew(m: Merged, hits: seq<Hit>, build: Builder)
    requires |hits| > 0 && hits[0].chunk.id !in m.seen && build(hits[0]).Ok?
    ensures var h := hits[0];
      var next := Merged(m.seen + {h.chunk.id}, m.raw + [h.chunk], m.retrievals + [build(h).value]);
      MergeOutcome(m, hits, build) == MergeOutcome(next, hits[1..], build)
  {
    var h, rest := hits[0], hits[1..];
    var x := build(h).value;
    var next := Merged(m.seen + {h.chunk.id}, m.raw + [h.chunk], m.retrievals + [x]);
    var firsts := FirstHits(m.seen, hits);
    var tail := FirstHits(next.seen, rest);
    FirstHitsCons(m.seen, hits);
    SeenOfNew(m, hits);
    RawOfNew(m.seen, hits);
    assert next.raw + HitChunks(tail) == m.raw + HitChunks(firsts);
    BuildAllCons(firsts, build);
    match BuildAll(tail, build)
    case Err(e) => {}
    case Ok(rs) => {
      assert next.retrievals + rs == m.retrievals + ([x] + rs);
    }
  }

  /** The retrievals of a non-empty list of hits: the first one's, then the rest's. */
  lemma BuildAllCons(hits: seq<Hit>, build: Builder)
    requires |hits| > 0 && build(hits[0]).Ok?
    ensures BuildAll(hits[1..], build).Err? ==> BuildAll(hits, build) == BuildAll(hits[1..], build)
    ensures BuildAll(hits[1..], build).Ok? ==> BuildAll(hits, build) == Ok([build(hits[0]).value] + BuildAll(hits[1..], build).value)
  {
  }

  /** Recording a new hit's id, then the rest's, sees the ids of all the hits. */
  lemma SeenOfNew(m: Merged, hits: seq<Hit>)
    requires |hits| > 0
    ensures m.seen + {hits[0].chunk.id} + HitIds(hits[1..]) == m.seen + HitIds(hits)
  {
    HitIdsCons(hits);
  }

  /** The first chunks of hits that start with a new hit: its chunk, then the first chunks of the rest. */
  lemma RawOfNew(seen: set<string>, hits: seq<Hit>)
    requires |hits| > 0 && hits[0].chunk.id !in seen
    ensures HitChunks(FirstHits(seen, hits)) == [hits[0].chunk] + HitChunks(FirstHits(seen + {hits[0].chunk.id}, hits[1..]))
  {
    var firsts := FirstHits(seen, hits);
    FirstHitsCons(seen, hits);
    assert firsts[1..] == FirstHits(seen + {hits[0].chunk.id}, hits[1..]);
    HitChunksCons(firsts);
  }

  /** A new first hit heads the first hits. */
  lemma FirstHitsCons(seen: set<string>, hits: seq<Hit>)
    requires |hits| > 0 && hits[0].chunk.id !in seen
    ensures FirstHits(seen, hits) == [hits[0]] + FirstHits(seen + {hits[0].chunk.id}, hits[1..])
  {
  }

  /** The chunks of a non-empty list of hits: the first one's, then the rest's. */
  lemma HitChunksCons(hits: seq<Hit>)
    requires |hits| > 0
    ensures HitChunks(hits) == [hits[0].chunk] + HitChunks(hits[1..])
  {
    assert HitChunks(hits)[1..] == HitChunks(hits[1..]);
  }

  /** Each first hit is one of the hits, with an id outside `seen`. */
  lemma {:induction false} FirstHitsAreNew(seen: set<string>, hits: seq<Hit>)
    ensures forall x :: x in FirstHits(seen, hits) ==> x in hits && x.chunk.id !in seen
    decreases |hits|
  {
    if |hits| > 0 {
      var h, rest := hits[0], hits[1..];
      var seen' := if h.chunk.id in seen then seen else seen + {h.chunk.id};
      FirstHitsAreNew(seen', rest);
      assert hits == [h] + rest;
      assert forall x :: x in FirstHits(seen, hits) ==> x == h || x in FirstHits(seen', rest);
    }
  }

  /** The first hits have distinct ids. */
  lemma {:induction false} FirstHitsDistinct(seen: set<string>, hits: seq<Hit>)
    ensures forall i, j :: 0 <= i < j < |FirstHits(seen, hits)| ==> FirstHits(seen, hits)[i].chunk.id != FirstHits(seen, hits)[j].chunk.id
    decreases |hits|
  {
    if |hits| > 0 {
      var h, rest := hits[0], hits[1..];
      if h.chunk.id in seen {
        FirstHitsDistinct(seen, rest);
      } else {
        var seen' := seen + {h.chunk.id};
        FirstHitsDistinct(seen', rest);
        FirstHitsAreNew(seen', rest);
        var tail := FirstHits(seen', rest);
        var firsts := FirstHits(seen, hits);
        assert firsts == [h] + tail;
        forall i, j | 0 <= i < j < |firsts| ensures firsts[i].chunk.id != firsts[j].chunk.id {
          assert firsts[j] == tail[j - 1] && tail[j - 1] in tail;
          if i > 0 { assert firsts[i] == tail[i - 1]; }
        }
      }
    }
  }

  /** Some hit of `hits` has chunk id `id`. */
  predicate HasId(hits: seq<Hit>, id: string) {
    exists i :: 0 <= i < |hits| && hits[i].chunk.id == id
  }

  /** Every id of the hits is in `seen` or is the id of a first hit. */
  lemma {:induction false} FirstHitsCover(seen: set<string>, hits: seq<Hit>)
    ensures forall x :: x in hits ==> x.chunk.id in seen || HasId(FirstHits(seen, hits), x.chunk.id)
    decreases |hits|
  {
    if |hits| > 0 {
      var h, rest := hits[0], hits[1..];
      var seen' := if h.chunk.id in seen then seen else seen + {h.chunk.id};
      FirstHitsCover(seen', rest);
      var firsts := FirstHits(seen, hits);
      var tail := FirstHits(seen', rest);
      forall x | x in hits ensures x.chunk.id in seen || HasId(firsts, x.chunk.id) {
        if h.chunk.id in seen {
          assert firsts == tail;
          if x != h { assert x in rest; }
        } else {
          assert firsts == [h] + tail;
          if x.chunk.id == h.chunk.id {
            assert firsts[0].chunk.id == x.chunk.id;
          } else if x.chunk.id !in seen {
            assert x in rest;
            var i :| 0 <= i < |tail| && tail[i].chunk.id == x.chunk.id;
            assert firsts[i + 1] == tail[i];
          }
        }
      }
    }
  }

  /** The first hit kept for an id is the earliest hit with that id. */
  lemma {:induction false} FirstHitIsEarliest(seen: set<string>, hits: seq<Hit>, k: nat)
    requires k < |hits| && hits[k].chunk.id !in seen
    requires forall j :: 0 <= j < k ==> hits[j].chunk.id != hits[k].chunk.id
    ensures hits[k] in FirstHits(seen, hits)
    decreases k
  {
    if k == 0 {
      assert FirstHits(seen, hits)[0] == hits[0];
    } else {
      var h, rest := hits[0], hits[1..];
      var seen' := if h.chunk.id in seen then seen else seen + {h.chunk.id};
      assert rest[k - 1] == hits[k];
      FirstHitIsEarliest(seen', rest, k - 1);
    }
  }

  /** The state a sequence of hit lists leaves the merge in, as one flat list. */
  lemma FlattenSteps(results: seq<seq<Hit>>, i: nat, j: nat)
    requires i < |results| && j < |results[i]|
    ensures (results[i][j..] + Embedding.Concat(results[i + 1..]))[0] == results[i][j]
    ensures (results[i][j..] + Embedding.Concat(results[i + 1..]))[1..] == results[i][j + 1..] + Embedding.Concat(results[i + 1..])
  {
  }

  /** Splitting off the first list of a flattened sequence. */
  lemma FlattenFirst(results: seq<seq<Hit>>, i: nat)
    requires i < |results|
    ensures Embedding.Concat(results[i..]) == results[i][0..] + Embedding.Concat(results[i + 1..])
  {
    assert results[i..][1..] == results[i + 1..];
  }

  /**
   * The merge loops of `retrieve_eligibility_context`: over the result lists
   * in query order, and over each list's hits, skipping ids already seen.
   */
  method MergeResults(results: seq<seq<Hit>>, build: Builder) returns (r: Result<Merged>)
    ensures r == MergeFrom(NothingMerged, Embedding.Concat(results), build)
  {
    var seen: set<string> := {};
    var raw: seq<GuideChunk> := [];
    var built: seq<RagRetrieval> := [];
    ghost var total := MergeFrom(NothingMerged, Embedding.Concat(results), build);
    for i := 0 to |results|
      invariant MergeFrom(Merged(seen, raw, built), Embedding.Concat(results[i..]), build) == total
    {
      FlattenFirst(results, i);
      for j := 0 to |results[i]|
        invariant MergeFrom(Merged(seen, raw, built), results[i][j..] + Embedding.Concat(results[i + 1..]), build) == total
      {
        FlattenSteps(results, i, j);
        var h := results[i][j];
        if h.chunk.id in seen {
          continue;
        }
        var chunkId := h.chunk.id;
        seen := seen + {chunkId};
        var retrieval := build(h);
        if retrieval.Err? {
          return Err(retrieval.error);
        }
        raw := raw + [h.chunk];
        built := built + [retrieval.value];
      }
      assert results[i][|results[i]|..] + Embedding.Concat(results[i + 1..]) == Embedding.Concat(results[i + 1..]);
    }
    assert results[|results|..] == [];
    r := Ok(Merged(seen, raw, built));
  }

  /** `rag_retrievals.sort(key=relevance, reverse=True)` sorts by the negated relevance, keeping ties in order. */
  function Descending(r: RagRetrieval): real { -r.relevance }

  const MaxRetrievals := 12

  /** `s[:n]` on a list. */
  function FirstOf<T>(s: seq<T>, n: nat): (r: seq<T>)
    ensures |r| == (if |s| <= n then |s| else n) && r == s[..|r|]
  {
    if |s| <= n then s else s[..n]
  }

  /** What the queries return, query by query. */
  function Searched(search: Search, queries: seq<GuideQuery>): (r: seq<seq<Hit>>)
    ensures |r| == |queries|
  {
    seq(|queries|, k requires 0 <= k < |queries| => RunQuery(search, queries[k]))
  }

  /** Every hit of the twelve queries, in query order. */
  function AllHits(propertyType: string, search: Search): seq<Hit> {
    Embedding.Concat(Searched(search, Queries(propertyType)))
  }

  /** The kept chunks, and the retrievals sorted by relevance, highest first, cut to twelve. */
  function Ranked(m: Merged): (seq<GuideChunk>, seq<RagRetrieval>) {
    (m.raw, FirstOf(SortBy(m.retrievals, Descending), MaxRetrievals))
  }

  /** What `retrieve_eligibility_context` returns, without the time taken. */
  function Retrieved(propertyType: string, search: Search): Result<(seq<GuideChunk>, seq<RagRetrieval>)> {
    match MergeFrom(NothingMerged, AllHits(propertyType, search), RetrievalOf)
    case Err(e) => Err(e)
    case Ok(m) => Ok(Ranked(m))
  }

  /** The loop that runs the queries, in order. */
  method SearchAll(queries: seq<GuideQuery>, search: Search) returns (results: seq<seq<Hit>>)
    ensures results == Searched(search, queries)
  {
    results := [];
    for k := 0 to |queries|
      invariant |results| == k && forall i :: 0 <= i < k ==> results[i] == RunQuery(search, queries[i])
    {
      results := results + [RunQuery(search, queries[k])];
    }
  }

  /**
   * `retrieve_eligibility_context`: the twelve queries run, a failing one
   * contributing nothing; the hits merge first-wins by chunk id; the chunks
   * stay in merge order while the retrievals are sorted by relevance,
   * highest first, and cut to twelve.
   */
  method RetrieveContext(propertyType: string, search: Search) returns (r: Result<(seq<GuideChunk>, seq<RagRetrieval>)>)
    ensures r == Retrieved(propertyType, search)
  {
    var queries := BuildQueries(Catalogue, propertyType);
    var results := SearchAll(queries, search);
    var merged := MergeResults(results, RetrievalOf);
    if merged.Err? {
      return Err(merged.error);
    }
    var sorted := SortBy(merged.value.retrievals, Descending);
    r := Ok((merged.value.raw, FirstOf(sorted, MaxRetrievals)));
  }

  /** The retrievals ranked are at most twelve, the most relevant first, each one of the merge's. */
  lemma RankedOrder(m: Merged)
    ensures var (raw, retrievals) := Ranked(m);
      && raw == m.raw && |retrievals| <= MaxRetrievals
      && (forall i, j :: 0 <= i < j < |retrievals| ==> retrievals[i].relevance >= retrievals[j].relevance)
      && (forall r :: r in retrievals ==> r in m.retrievals)
  {
    var sorted := SortBy(m.retrievals, Descending);
    var retrievals := FirstOf(sorted, MaxRetrievals);
    forall i, j | 0 <= i < j < |retrievals| ensures retrievals[i].relevance >= retrievals[j].relevance {
      assert retrievals[i] == sorted[i] && retrievals[j] == sorted[j];
      assert Descending(sorted[i]) <= Descending(sorted[j]);
    }
    forall r | r in retrievals ensures r in m.retrievals {
      assert r in sorted;
      assert r in multiset(sorted);
    }
  }

  /** The merge from nothing, in terms of the first hits. */
  lemma MergedFromNothing(hits: seq<Hit>)
    ensures var out := MergeFrom(NothingMerged, hits, RetrievalOf);
      var firsts := FirstHits({}, hits);
      && (out.Ok? <==> forall h :: h in firsts ==> RetrievalOf(h).Ok?)
      && (out.Ok? ==> BuildAll(firsts, RetrievalOf).Ok? && out.value.raw == HitChunks(firsts) && out.value.retrievals == BuildAll(firsts, RetrievalOf).value)
  {
    var firsts := FirstHits({}, hits);
    MergeKeepsFirstHits(NothingMerged, hits, RetrievalOf);
    assert (forall i :: 0 <= i < |firsts| ==> RetrievalOf(firsts[i]).Ok?) <==> forall h :: h in firsts ==> RetrievalOf(h).Ok?;
  }

  /**
   * The merge of any hits from nothing fails exactly when a first hit's
   * retrieval cannot be built; otherwise each retrieval is built from a hit
   * whose chunk is kept, the kept chunks have distinct ids, and every id of
   * the hits is kept.
   */
  lemma FirstWinsMerge(hits: seq<Hit>)
    ensures MergeFrom(NothingMerged, hits, RetrievalOf).Ok? <==> forall h :: h in FirstHits({}, hits) ==> RetrievalOf(h).Ok?
    ensures MergeFrom(NothingMerged, hits, RetrievalOf).Ok? ==>
      var m := MergeFrom(NothingMerged, hits, RetrievalOf).value;
      && (forall r :: r in m.retrievals ==> exists h :: h in hits && h.chunk in m.raw && RetrievalOf(h) == Ok(r))
      && (forall i, j :: 0 <= i < j < |m.raw| ==> m.raw[i].id != m.raw[j].id)
      && (forall h :: h in hits ==> exists i :: 0 <= i < |m.raw| && m.raw[i].id == h.chunk.id)
  {
    MergedFromNothing(hits);
    if MergeFrom(NothingMerged, hits, RetrievalOf).Ok? {
      MergedRetrievalsFromHits(hits);
      MergedIdsDistinct(hits);
      MergedIdsCover(hits);
    }
  }

  /** Each retrieval of the merge is built from a hit whose chunk is kept. */
  lemma MergedRetrievalsFromHits(hits: seq<Hit>)
    requires MergeFrom(NothingMerged, hits, RetrievalOf).Ok?
    ensures var m := MergeFrom(NothingMerged, hits, RetrievalOf).value;
      forall r :: r in m.retrievals ==> exists h :: h in hits && h.chunk in m.raw && RetrievalOf(h) == Ok(r)
  {
    MergedFromNothing(hits);
    var m := MergeFrom(NothingMerged, hits, RetrievalOf).value;
    var firsts := FirstHits({}, hits);
    var built := BuildAll(firsts, RetrievalOf).value;
    FirstHitsAreNew({}, hits);
    forall r | r in m.retrievals ensures exists h :: h in hits && h.chunk in m.raw && RetrievalOf(h) == Ok(r) {
      var k :| 0 <= k < |built| && built[k] == r;
      assert firsts[k] in firsts && m.raw[k] == firsts[k].chunk;
    }
  }

  /** The merge keeps chunks of distinct ids. */
  lemma MergedIdsDistinct(hits: seq<Hit>)
    requires MergeFrom(NothingMerged, hits, RetrievalOf).Ok?
    ensures var m := MergeFrom(NothingMerged, hits, RetrievalOf).value;
      forall i, j :: 0 <= i < j < |m.raw| ==> m.raw[i].id != m.raw[j].id
  {
    MergedFromNothing(hits);
    FirstHitsDistinct({}, hits);
  }

  /** The merge keeps a chunk for every id of the hits. */
  lemma MergedIdsCover(hits: seq<Hit>)
    requires MergeFrom(NothingMerged, hits, RetrievalOf).Ok?
    ensures var m := MergeFrom(NothingMerged, hits, RetrievalOf).value;
      forall h :: h in hits ==> exists i :: 0 <= i < |m.raw| && m.raw[i].id == h.chunk.id
  {
    MergedFromNothing(hits);
    var raw := MergeFrom(NothingMerged, hits, RetrievalOf).value.raw;
    var firsts := FirstHits({}, hits);
    FirstHitsCover({}, hits);
    forall h | h in hits ensures exists i :: 0 <= i < |raw| && raw[i].id == h.chunk.id {
      var i :| 0 <= i < |firsts| && firsts[i].chunk.id == h.chunk.id;
      assert raw[i].id == h.chunk.id;
    }
  }

  /**
   * The retrieval fails exactly when a first hit's retrieval cannot be
   * built. Otherwise the retrievals returned are at most twelve, the most
   * relevant first, each built from a hit whose chunk is kept; the kept
   * chunks have distinct ids, and every id the queries found is kept.
   */
  lemma RetrievedSpec(propertyType: string, search: Search)
    ensures Retrieved(propertyType, search).Ok? <==>
      forall h :: h in FirstHits({}, AllHits(propertyType, search)) ==> RetrievalOf(h).Ok?
    ensures Retrieved(propertyType, search).Ok? ==>
      var (raw, retrievals) := Retrieved(propertyType, search).value;
      && |retrievals| <= MaxRetrievals
      && (forall i, j :: 0 <= i < j < |retrievals| ==> retrievals[i].relevance >= retrievals[j].relevance)
      && (forall r :: r in retrievals ==> exists h :: h in AllHits(propertyType, search) && h.chunk in raw && RetrievalOf(h) == Ok(r))
      && (forall i, j :: 0 <= i < j < |raw| ==> raw[i].id != raw[j].id)
      && (forall h :: h in AllHits(propertyType, search) ==> exists i :: 0 <= i < |raw| && raw[i].id == h.chunk.id)
  {
    var hits := AllHits(propertyType, search);
    FirstWinsMerge(hits);
    var out := MergeFrom(NothingMerged, hits, RetrievalOf);
    if out.Ok? {
      RankedOrder(out.value);
    }
  }

  // The analysis prompt

  const ExcerptLength := 800
  const SectionPrefix := "Section "
  const OpenBracket := "["
  const CloseBracket := "] "
  const Newline := "\n"
  const FannieMae := "fannie_mae"

  /** `metadata.get("text", "")[:800]`: a string or a list can be sliced, nothing else can. */
  function SlicedText(md: Dict): (r: Result<Json>)
    ensures r.Err? <==> !GetOr(md, "text", JStr("")).JStr? && !GetOr(md, "text", JStr("")).JArr?
    ensures r.Err? ==> r.error == TypeError
    ensures r.Ok? && r.value.JStr? ==> |r.value.s| <= ExcerptLength
    ensures r.Ok? && r.value.JArr? ==> |r.value.items| <= ExcerptLength
  {
    match GetOr(md, "text", JStr(""))
    case JStr(text) => Ok(JStr(Take(text, ExcerptLength)))
    case JArr(items) => Ok(JArr(FirstOf(items, ExcerptLength)))
    case _ => Err(TypeError)
  }

  /** An excerpt goes under Fannie Mae when its `gse` is the string `fannie_mae`, under Freddie Mac otherwise. */
  predicate IsFannieExcerpt(c: GuideChunk) {
    GetOr(c.metadata, "gse", JStr("")) == JStr(FannieMae)
  }

  /**
   * The excerpt of the chunk at position `i`: `[section] title`, a newline
   * and the sliced text; the section defaults to the chunk's number,
   * counted from one.
   */
  function ChunkExcerpt(i: nat, c: GuideChunk, repr: Json -> string): (r: Result<string>)
    ensures r.Err? <==> SlicedText(c.metadata).Err?
    ensures r.Err? ==> r.error == TypeError
  {
    match SlicedText(c.metadata)
    case Err(e) => Err(e)
    case Ok(text) =>
      var section := GetOr(c.metadata, "section", JStr(SectionPrefix + NatToString(i + 1)));
      var title := GetOr(c.metadata, "title", JStr(""));
      Ok(OpenBracket + PyStr(section, repr) + CloseBracket + PyStr(title, repr) + Newline + PyStr(text, repr))
  }

  /** How a chunk at a position is formatted: `ChunkExcerpt` with a fixed `repr`. */
  type Formatter = (nat, GuideChunk) -> Result<string>

  function FormatterOf(repr: Json -> string): Formatter {
    (i: nat, c: GuideChunk) => ChunkExcerpt(i, c, repr)
  }

  /**
   * The loop of `build_analysis_prompt` from chunk `i` on, with the Fannie
   * Mae and Freddie Mac excerpts gathered so far.
   */
  function ExcerptsFrom(chunks: seq<GuideChunk>, i: nat, fannie: seq<string>, freddie: seq<string>,
                        format: Formatter): Result<(seq<string>, seq<string>)>
    requires i <= |chunks|
    decreases |chunks| - i
  {
    if i == |chunks| then Ok((fannie, freddie))
    else
      match format(i, chunks[i])
      case Err(e) => Err(e)
      case Ok(e) =>
        if IsFannieExcerpt(chunks[i]) then ExcerptsFrom(chunks, i + 1, fannie + [e], freddie, format)
        else ExcerptsFrom(chunks, i + 1, fannie, freddie + [e], format)
  }

  /** Every chunk from `i` on can be formatted. */
  predicate SliceableFrom(chunks: seq<GuideChunk>, i: nat, format: Formatter) {
    forall k :: i <= k < |chunks| ==> format(k, chunks[k]).Ok?
  }

  /** The excerpts of the chunks from `i` on that go under Fannie Mae (`want`) or Freddie Mac (`!want`), in order. */
  function PickFrom(chunks: seq<GuideChunk>, i: nat, want: bool, format: Formatter): seq<string>
    requires i <= |chunks| && SliceableFrom(chunks, i, format)
    decreases |chunks| - i
  {
    if i == |chunks| then []
    else
      var here := if IsFannieExcerpt(chunks[i]) == want then [format(i, chunks[i]).value] else [];
      here + PickFrom(chunks, i + 1, want, format)
  }

  /** The excerpts of all chunks, in order. */
  function AllExcerpts(chunks: seq<GuideChunk>, format: Formatter): (r: seq<string>)
    requires SliceableFrom(chunks, 0, format)
    ensures |r| == |chunks|
  {
    seq(|chunks|, k requires 0 <= k < |chunks| => format(k, chunks[k]).value)
  }

  /** The two picks from `i` on hold the excerpts from `i` on, each once. */
  lemma {:induction false} PickFromSplits(chunks: seq<GuideChunk>, i: nat, format: Formatter)
    requires i <= |chunks| && SliceableFrom(chunks, 0, format)
    ensures multiset(PickFrom(chunks, i, true, format)) + multiset(PickFrom(chunks, i, false, format))
         == multiset(AllExcerpts(chunks, format)[i..])
    decreases |chunks| - i
  {
    var all := AllExcerpts(chunks, format);
    if i < |chunks| {
      PickFromSplits(chunks, i + 1, format);
      assert all[i..] == [all[i]] + all[i + 1..];
    }
  }

  /** The excerpt of chunk `k` is among the picks, from any `i` up to `k`, of its guide's side. */
  lemma {:induction false} PickFromHas(chunks: seq<GuideChunk>, i: nat, k: nat, format: Formatter)
    requires i <= k < |chunks| && SliceableFrom(chunks, 0, format)
    ensures format(k, chunks[k]).value in PickFrom(chunks, i, IsFannieExcerpt(chunks[k]), format)
    decreases k - i
  {
    if i < k {
      PickFromHas(chunks, i + 1, k, format);
    }
  }

  /**
   * The loop from chunk `i` stops exactly when a chunk from `i` on cannot be
   * formatted, and then with that chunk's error.
   */
  lemma {:induction false} ExcerptsFromFails(chunks: seq<GuideChunk>, i: nat, fannie: seq<string>, freddie: seq<string>,
                                             format: Formatter)
    requires i <= |chunks|
    ensures ExcerptsFrom(chunks, i, fannie, freddie, format).Ok? <==> SliceableFrom(chunks, i, format)
    ensures ExcerptsFrom(chunks, i, fannie, freddie, format).Err? ==>
      exists k :: i <= k < |chunks| && format(k, chunks[k]) == Err(ExcerptsFrom(chunks, i, fannie, freddie, format).error)
    decreases |chunks| - i
  {
    if i < |chunks| && format(i, chunks[i]).Ok? {
      var e := format(i, chunks[i]).value;
      if IsFannieExcerpt(chunks[i]) {
        ExcerptsFromFails(chunks, i + 1, fannie + [e], freddie, format);
      } else {
        ExcerptsFromFails(chunks, i + 1, fannie, freddie + [e], format);
      }
    }
  }

  /**
   * When every chunk from `i` on can be formatted, the loop from `i` keeps
   * the excerpts it has and adds those of the chunks from `i` on, each to
   * its guide's list.
   */
  lemma {:induction false} ExcerptsFromPick(chunks: seq<GuideChunk>, i: nat, fannie: seq<string>, freddie: seq<string>,
                                            format: Formatter)
    requires i <= |chunks| && SliceableFrom(chunks, i, format)
    ensures ExcerptsFrom(chunks, i, fannie, freddie, format)
         == Ok((fannie + PickFrom(chunks, i, true, format), freddie + PickFrom(chunks, i, false, format)))
    decreases |chunks| - i
  {
    if i < |chunks| {
      var e := format(i, chunks[i]).value;
      if IsFannieExcerpt(chunks[i]) {
        ExcerptsFromPick(chunks, i + 1, fannie + [e], freddie, format);
        assert fannie + [e] + PickFrom(chunks, i + 1, true, format) == fannie + PickFrom(chunks, i, true, format);
        assert PickFrom(chunks, i + 1, false, format) == PickFrom(chunks, i, false, format);
      } else {
        ExcerptsFromPick(chunks, i + 1, fannie, freddie + [e], format);
        assert freddie + [e] + PickFrom(chunks, i + 1, false, format) == freddie + PickFrom(chunks, i, false, format);
        assert PickFrom(chunks, i + 1, true, format) == PickFrom(chunks, i, true, format);
      }
    } else {
      assert fannie + [] == fannie && freddie + [] == freddie;
    }
  }

  /** The excerpts of the chunks, Fannie Mae's and Freddie Mac's apart, or the error that stops the loop. */
  function Excerpts(chunks: seq<GuideChunk>, repr: Json -> string): Result<(seq<string>, seq<string>)> {
    ExcerptsFrom(chunks, 0, [], [], FormatterOf(repr))
  }

  /** A chunk can be formatted exactly when its text can be sliced. */
  lemma FormatterSlices(chunks: seq<GuideChunk>, repr: Json -> string)
    ensures SliceableFrom(chunks, 0, FormatterOf(repr)) <==> forall k :: 0 <= k < |chunks| ==> SlicedText(chunks[k].metadata).Ok?
    ensures forall k :: 0 <= k < |chunks| && FormatterOf(repr)(k, chunks[k]).Err? ==> FormatterOf(repr)(k, chunks[k]).error == TypeError
  {
  }

  /** Each excerpt is on its guide's side. */
  lemma PicksHaveAll(chunks: seq<GuideChunk>, format: Formatter)
    requires SliceableFrom(chunks, 0, format)
    ensures forall k :: 0 <= k < |chunks| && IsFannieExcerpt(chunks[k]) ==> AllExcerpts(chunks, format)[k] in PickFrom(chunks, 0, true, format)
    ensures forall k :: 0 <= k < |chunks| && !IsFannieExcerpt(chunks[k]) ==> AllExcerpts(chunks, format)[k] in PickFrom(chunks, 0, false, format)
  {
    forall k | 0 <= k < |chunks|
      ensures AllExcerpts(chunks, format)[k] in PickFrom(chunks, 0, IsFannieExcerpt(chunks[k]), format)
    {
      PickFromHas(chunks, 0, k, format);
    }
  }

  /**
   * The excerpts split into the Fannie Mae chunks' and the others', each in
   * the chunks' order: every excerpt lands in exactly one of the two lists,
   * on its guide's side. The split fails, with `TypeError`, exactly when a
   * chunk's text is neither a string nor a list.
   */
  lemma ExcerptsSplit(chunks: seq<GuideChunk>, repr: Json -> string)
    ensures Excerpts(chunks, repr).Ok? <==> forall k :: 0 <= k < |chunks| ==> SlicedText(chunks[k].metadata).Ok?
    ensures Excerpts(chunks, repr).Err? ==> Excerpts(chunks, repr).error == TypeError
    ensures Excerpts(chunks, repr).Ok? ==>
      var format := FormatterOf(repr);
      var (fannie, freddie) := Excerpts(chunks, repr).value;
      && SliceableFrom(chunks, 0, format)
      && fannie == PickFrom(chunks, 0, true, format) && freddie == PickFrom(chunks, 0, false, format)
      && multiset(fannie) + multiset(freddie) == multiset(AllExcerpts(chunks, format))
      && (forall k :: 0 <= k < |chunks| && IsFannieExcerpt(chunks[k]) ==> AllExcerpts(chunks, format)[k] in fannie)
      && (forall k :: 0 <= k < |chunks| && !IsFannieExcerpt(chunks[k]) ==> AllExcerpts(chunks, format)[k] in freddie)
  {
    var format := FormatterOf(repr);
    ExcerptsFromFails(chunks, 0, [], [], format);
    FormatterSlices(chunks, repr);
    if SliceableFrom(chunks, 0, format) {
      ExcerptsFromPick(chunks, 0, [], [], format);
      PickFromSplits(chunks, 0, format);
      assert AllExcerpts(chunks, format)[0..] == AllExcerpts(chunks, format);
      PicksHaveAll(chunks, format);
    }
  }

  const ExcerptsHeading := "GSE GUIDE EXCERPTS:\n\n"
  const FannieHeading := "=== FANNIE MAE (HomeReady) ===\n"
  const FreddieHeading := "=== FREDDIE MAC (Home Possible) ===\n"
  const ExcerptSeparator := "\n---\n"
  const BlankLine := "\n\n"
  const Instruction := "Analyze this loan scenario against the provided guide excerpts and determine eligibility for HomeReady and Home Possible. Respond with JSON only."

  /** A guide's part of the context: nothing without excerpts, else its heading, the excerpts apart and the tail. */
  function GuidePart(heading: string, excerpts: seq<string>, tail: string): string {
    if |excerpts| > 0 then heading + Join(excerpts, ExcerptSeparator) + tail else ""
  }

  /** Every excerpt of a guide appears in its part. */
  lemma GuidePartHasExcerpts(heading: string, excerpts: seq<string>, tail: string, k: nat)
    requires k < |excerpts|
    ensures Contains(GuidePart(heading, excerpts, tail), excerpts[k])
  {
    JoinContains(excerpts, ExcerptSeparator, k);
    ContainsExtend(heading, Join(excerpts, ExcerptSeparator), tail, excerpts[k]);
  }

  /** The excerpts under their headings: a guide without excerpts gets no heading. */
  function ContextString(fannie: seq<string>, freddie: seq<string>): string {
    ExcerptsHeading + GuidePart(FannieHeading, fannie, BlankLine) + GuidePart(FreddieHeading, freddie, "")
  }

  /** The prompt: the loan's description, the context and the instruction, a blank line apart. */
  function PromptText(loanInfo: string, context: string): string {
    loanInfo + BlankLine + context + BlankLine + Instruction
  }

  /** `build_analysis_prompt` for the scenario's description and the retrieved chunks. */
  function AnalysisPrompt(loanInfo: string, chunks: seq<GuideChunk>, repr: Json -> string): Result<string> {
    match Excerpts(chunks, repr)
    case Err(e) => Err(e)
    case Ok((fannie, freddie)) => Ok(PromptText(loanInfo, ContextString(fannie, freddie)))
  }

  /** Every excerpt of either guide appears in the context. */
  lemma ContextHasExcerpt(fannie: seq<string>, freddie: seq<string>, e: string)
    requires e in fannie || e in freddie
    ensures Contains(ContextString(fannie, freddie), e)
  {
    var fan := GuidePart(FannieHeading, fannie, BlankLine);
    var fre := GuidePart(FreddieHeading, freddie, "");
    if e in fannie {
      var k :| 0 <= k < |fannie| && fannie[k] == e;
      GuidePartHasExcerpts(FannieHeading, fannie, BlankLine, k);
      ContainsExtend(ExcerptsHeading, fan, fre, e);
    } else {
      var k :| 0 <= k < |freddie| && freddie[k] == e;
      GuidePartHasExcerpts(FreddieHeading, freddie, "", k);
      ContainsExtend(ExcerptsHeading + fan, fre, "", e);
      assert ExcerptsHeading + fan + fre + "" == ContextString(fannie, freddie);
    }
  }

  /** What appears in the context appears in the prompt, which starts with the loan's description. */
  lemma PromptHolds(loanInfo: string, context: string, e: string)
    requires Contains(context, e)
    ensures StartsWith(PromptText(loanInfo, context), loanInfo)
    ensures Contains(PromptText(loanInfo, context), e)
  {
    StartsWithConcat(loanInfo, BlankLine + context + BlankLine + Instruction);
    assert loanInfo + (BlankLine + context + BlankLine + Instruction) == PromptText(loanInfo, context);
    ContainsExtend(loanInfo + BlankLine, context, BlankLine + Instruction, e);
    assert loanInfo + BlankLine + context + (BlankLine + Instruction) == PromptText(loanInfo, context);
  }

  /**
   * The prompt starts with the loan's description and holds the excerpt of
   * every retrieved chunk.
   */
  lemma PromptHasEveryExcerpt(loanInfo: string, chunks: seq<GuideChunk>, repr: Json -> string, k: nat)
    requires AnalysisPrompt(loanInfo, chunks, repr).Ok? && k < |chunks|
    ensures SliceableFrom(chunks, 0, FormatterOf(repr))
    ensures StartsWith(AnalysisPrompt(loanInfo, chunks, repr).value, loanInfo)
    ensures Contains(AnalysisPrompt(loanInfo, chunks, repr).value, AllExcerpts(chunks, FormatterOf(repr))[k])
  {
    ExcerptsSplit(chunks, repr);
    var (fannie, freddie) := Excerpts(chunks, repr).value;
    var e := AllExcerpts(chunks, FormatterOf(repr))[k];
    ContextHasExcerpt(fannie, freddie, e);
    PromptHolds(loanInfo, ContextString(fannie, freddie), e);
  }

  /** `build_analysis_prompt`: the loop over the chunks, then the context and the prompt around it. */
  method BuildAnalysisPrompt(loanInfo: string, chunks: seq<GuideChunk>, repr: Json -> string) returns (r: Result<string>)
    ensures r == AnalysisPrompt(loanInfo, chunks, repr)
  {
    var fannie: seq<string> := [];
    var freddie: seq<string> := [];
    for i := 0 to |chunks|
      invariant ExcerptsFrom(chunks, i, fannie, freddie, FormatterOf(repr)) == Excerpts(chunks, repr)
    {
      var formatted := ChunkExcerpt(i, chunks[i], repr);
      if formatted.Err? {
        return Err(formatted.error);
      }
      if IsFannieExcerpt(chunks[i]) {
        fannie := fannie + [formatted.value];
      } else {
        freddie := freddie + [formatted.value];
      }
    }
    var context := ExcerptsHeading;
    if |fannie| > 0 {
      context := context + (FannieHeading + Join(fannie, ExcerptSeparator) + BlankLine);
    }
    ghost var fanned := context;
    assert fanned == ExcerptsHeading + GuidePart(FannieHeading, fannie, BlankLine);
    if |freddie| > 0 {
      context := context + (FreddieHeading + Join(freddie, ExcerptSeparator) + "");
    } else {
      assert fanned + GuidePart(FreddieHeading, freddie, "") == fanned;
    }
    assert context == fanned + GuidePart(FreddieHeading, freddie, "");
    r := Ok(PromptText(loanInfo, context));
  }

  // Converting the analysis

  /** One step of the demo trace: the rule, the product, what was checked, `pass` or `fail`, the citation and the details. */
  datatype ReasoningStep = ReasoningStep(rule: string, product: string, check: string, result: string,
                                         citation: string, details: string)

  const PassResult := "pass"
  const FailResult := "fail"
  const UnknownRule := "unknown"
  const UnknownRequirement := "Unknown requirement"
  const DefaultDescription := "Eligibility requirement"
  const NotAvailable := "N/A"
  const SeeGuide := "See guide"
  const GuideSuffix := " Guide"
  const DefaultRecommendation := "Analysis complete. Review the results for each product."

  /** The key under which the analysis holds a product. */
  function ProductKey(p: Product): string {
    match p
    case HomeReady => "homeready"
    case HomePossible => "home_possible"
  }

  /** A rule's `result`: `pass` when none is given. */
  function ResultOf(rule: Dict): Json {
    GetOr(rule, "result", JStr(PassResult))
  }

  /** The step recorded for a rule: every field must be a string, and any result but `pass` reads as `fail`. */
  function StepOf(rule: Dict, p: Product): (r: Result<ReasoningStep>)
    ensures r.Ok? ==> r.value.product == ProductName(p)
    ensures r.Ok? ==> (r.value.result == PassResult <==> ResultOf(rule) == JStr(PassResult))
    ensures r.Ok? ==> r.value.result in {PassResult, FailResult}
    ensures r.Err? ==> r.error == ValidationError
  {
    var name := GetOr(rule, "rule_name", JStr(UnknownRule));
    var check := GetOr(rule, "requirement", JStr(UnknownRequirement));
    var citation := GetOr(rule, "citation", JStr(""));
    var details := GetOr(rule, "explanation", JStr(""));
    if name.JStr? && check.JStr? && citation.JStr? && details.JStr? then
      var result := if ResultOf(rule) == JStr(PassResult) then PassResult else FailResult;
      Ok(ReasoningStep(name.s, ProductName(p), check.s, result, citation.s, details.s))
    else Err(ValidationError)
  }

  /** The citation a violation falls back on: the product's guide, named in title case. */
  function GuideName(p: Product): string {
    Title(ReplaceChar(ProductGse(p), '_', ' ')) + GuideSuffix
  }

  /** The violation recorded for a failed rule: every field must be a string. */
  function ViolationOf(rule: Dict, p: Product): (r: Result<RuleViolation>)
    ensures r.Err? ==> r.error == ValidationError
  {
    var name := GetOr(rule, "rule_name", JStr(UnknownRule));
    var description := GetOr(rule, "requirement", JStr(DefaultDescription));
    var actual := GetOr(rule, "actual_value", JStr(NotAvailable));
    var required := GetOr(rule, "requirement", JStr(SeeGuide));
    var citation := GetOr(rule, "citation", JStr(GuideName(p)));
    if name.JStr? && description.JStr? && actual.JStr? && required.JStr? && citation.JStr? then
      Ok(RuleViolation(name.s, description.s, Text(actual.s), Text(required.s), citation.s))
    else Err(ValidationError)
  }

  /** Whether a rule failed: its result is exactly the string `fail`. */
  predicate Failed(rule: Dict) {
    ResultOf(rule) == JStr(FailResult)
  }

  /**
   * One rule: its step, and its violation when it failed. A rule that is
   * not an object has no `get`.
   */
  function RuleOutcome(rule: Json, p: Product): (r: Result<(ReasoningStep, seq<RuleViolation>)>)
    ensures r.Ok? <==> rule.JObj? && StepOf(rule.fields, p).Ok? && (Failed(rule.fields) ==> ViolationOf(rule.fields, p).Ok?)
    ensures !rule.JObj? ==> r == Err(AttributeError)
    ensures r.Ok? ==> Ok(r.value.0) == StepOf(rule.fields, p)
    ensures r.Ok? ==> (|r.value.1| == 1 <==> Failed(rule.fields)) && |r.value.1| <= 1
    ensures r.Ok? && Failed(rule.fields) ==> Ok(r.value.1[0]) == ViolationOf(rule.fields, p)
  {
    if !rule.JObj? then Err(AttributeError)
    else
      match StepOf(rule.fields, p)
      case Err(e) => Err(e)
      case Ok(step) =>
        if Failed(rule.fields) then
          match ViolationOf(rule.fields, p)
          case Err(e) => Err(e)
          case Ok(v) => Ok((step, [v]))
        else Ok((step, []))
  }

  /** What the rule loop has gathered: the steps across products, and this product's violations. */
  datatype Checked = Checked(steps: seq<ReasoningStep>, violations: seq<RuleViolation>)

  /** How one rule is checked for a product: `RuleOutcome` with the product fixed. */
  type Outcome = Json -> Result<(ReasoningStep, seq<RuleViolation>)>

  function OutcomeFor(p: Product): Outcome {
    (rule: Json) => RuleOutcome(rule, p)
  }

  /** The rule loop from a state over the rules left, stopping at the first error. */
  function CheckRules(c: Checked, rules: seq<Json>, outcome: Outcome): Result<Checked>
    decreases |rules|
  {
    if |rules| == 0 then Ok(c)
    else
      match outcome(rules[0])
      case Err(e) => Err(e)
      case Ok((step, vs)) => CheckRules(Checked(c.steps + [step], c.violations + vs), rules[1..], outcome)
  }

  /** Every rule has an outcome. */
  predicate AllOutcomes(rules: seq<Json>, outcome: Outcome) {
    forall i :: 0 <= i < |rules| ==> outcome(rules[i]).Ok?
  }

  /** The steps of the rules, in order. */
  function StepsOf(rules: seq<Json>, outcome: Outcome): (r: seq<ReasoningStep>)
    requires AllOutcomes(rules, outcome)
  {
    if |rules| == 0 then [] else [outcome(rules[0]).value.0] + StepsOf(rules[1..], outcome)
  }

  /** The violations of the rules, in order. */
  function ViolationsOf(rules: seq<Json>, outcome: Outcome): seq<RuleViolation>
    requires AllOutcomes(rules, outcome)
  {
    if |rules| == 0 then [] else outcome(rules[0]).value.1 + ViolationsOf(rules[1..], outcome)
  }

  /** The number of failed rules. */
  function FailedCount(rules: seq<Json>): nat {
    if |rules| == 0 then 0 else (if rules[0].JObj? && Failed(rules[0].fields) then 1 else 0) + FailedCount(rules[1..])
  }

  /** There is one step per rule, the step of that rule. */
  lemma {:induction false} StepsOfEach(rules: seq<Json>, outcome: Outcome)
    requires AllOutcomes(rules, outcome)
    ensures |StepsOf(rules, outcome)| == |rules|
    ensures forall i :: 0 <= i < |rules| ==> StepsOf(rules, outcome)[i] == outcome(rules[i]).value.0
  {
    if |rules| > 0 {
      StepsOfEach(rules[1..], outcome);
      assert forall i :: 0 < i < |rules| ==> rules[1..][i - 1] == rules[i];
    }
  }

  /** There is one violation per failed rule. */
  lemma {:induction false} ViolationsCount(rules: seq<Json>, p: Product)
    requires AllOutcomes(rules, OutcomeFor(p))
    ensures |ViolationsOf(rules, OutcomeFor(p))| == FailedCount(rules)
  {
    if |rules| > 0 {
      assert AllOutcomes(rules[1..], OutcomeFor(p)) by {
        assert forall i :: 0 < i < |rules| ==> rules[1..][i - 1] == rules[i];
      }
      ViolationsCount(rules[1..], p);
    }
  }

  /** Each violation comes from the outcome of some rule. */
  lemma {:induction false} ViolationsFrom(rules: seq<Json>, outcome: Outcome, v: RuleViolation)
    requires AllOutcomes(rules, outcome) && v in ViolationsOf(rules, outcome)
    ensures exists i :: 0 <= i < |rules| && v in outcome(rules[i]).value.1
  {
    if v !in outcome(rules[0]).value.1 {
      assert AllOutcomes(rules[1..], outcome) by {
        assert forall i :: 0 < i < |rules| ==> rules[1..][i - 1] == rules[i];
      }
      ViolationsFrom(rules[1..], outcome, v);
      var i :| 0 <= i < |rules| - 1 && v in outcome(rules[1..][i]).value.1;
      assert rules[i + 1] == rules[1..][i];
    }
  }

  /** Each violation is the violation of a failed rule. */
  lemma ViolationsOfFailed(rules: seq<Json>, p: Product, v: RuleViolation)
    requires AllOutcomes(rules, OutcomeFor(p)) && v in ViolationsOf(rules, OutcomeFor(p))
    ensures exists i :: 0 <= i < |rules| && rules[i].JObj? && Failed(rules[i].fields) && ViolationOf(rules[i].fields, p) == Ok(v)
  {
    ViolationsFrom(rules, OutcomeFor(p), v);
    var i :| 0 <= i < |rules| && v in OutcomeFor(p)(rules[i]).value.1;
    OutcomeViolation(rules[i], p, v);
  }

  /** A rule's outcome holds a violation only when the rule failed, and then it is the rule's violation. */
  lemma OutcomeViolation(rule: Json, p: Product, v: RuleViolation)
    requires RuleOutcome(rule, p).Ok? && v in RuleOutcome(rule, p).value.1
    ensures rule.JObj? && Failed(rule.fields) && ViolationOf(rule.fields, p) == Ok(v)
  {
  }

  /**
   * The rule loop adds the steps of the rules, in order, and their
   * violations, in order; it fails exactly when a rule's outcome fails.
   */
  lemma {:induction false} CheckRulesSpec(c: Checked, rules: seq<Json>, outcome: Outcome)
    ensures CheckRules(c, rules, outcome).Ok? <==> AllOutcomes(rules, outcome)
    ensures AllOutcomes(rules, outcome) ==>
      CheckRules(c, rules, outcome) == Ok(Checked(c.steps + StepsOf(rules, outcome), c.violations + ViolationsOf(rules, outcome)))
    decreases |rules|
  {
    if |rules| > 0 {
      var o := outcome(rules[0]);
      assert AllOutcomes(rules, outcome) <==> o.Ok? && AllOutcomes(rules[1..], outcome) by {
        assert forall i :: 0 < i < |rules| ==> rules[1..][i - 1] == rules[i];
      }
      if o.Ok? {
        var next := Checked(c.steps + [o.value.0], c.violations + o.value.1);
        CheckRulesSpec(next, rules[1..], outcome);
        if AllOutcomes(rules, outcome) {
          assert next.steps + StepsOf(rules[1..], outcome) == c.steps + StepsOf(rules, outcome);
          assert next.violations + ViolationsOf(rules[1..], outcome) == c.violations + ViolationsOf(rules, outcome);
        }
      }
    } else {
      assert c.steps + [] == c.steps && c.violations + [] == c.violations;
    }
  }

  /** A product's rules: `rules_checked`, none when absent; a non-iterable value is a `TypeError`. */
  function RulesOf(data: Dict): Result<seq<Json>> {
    Iterate(GetOr(data, "rules_checked", JArr([])))
  }

  /** `product_data.get("eligible", len(violations) == 0)`, read as a boolean field. */
  function Eligible(data: Dict, violations: seq<RuleViolation>): (r: Result<bool>)
    ensures Get(data, "eligible").None? ==> r == Ok(|violations| == 0)
    ensures Get(data, "eligible").Some? ==> r == BoolField(Get(data, "eligible").value)
  {
    match Get(data, "eligible")
    case None => Ok(|violations| == 0)
    case Some(j) => BoolField(j)
  }

  /** A product's data: `analysis.get(key, {})`, which must be an object. */
  function ProductData(analysis: Dict, p: Product): Json {
    GetOr(analysis, ProductKey(p), JObj([]))
  }

  /** One product's result after the steps recorded so far, with the steps recorded after it. */
  function ProductOutcome(analysis: Dict, p: Product, steps: seq<ReasoningStep>): Result<(ProductResult, seq<ReasoningStep>)> {
    var data := ProductData(analysis, p);
    if !data.JObj? then Err(AttributeError)
    else
      match RulesOf(data.fields)
      case Err(e) => Err(e)
      case Ok(rules) =>
        match CheckRules(Checked(steps, []), rules, OutcomeFor(p))
        case Err(e) => Err(e)
        case Ok(c) =>
          match Eligible(data.fields, c.violations)
          case Err(e) => Err(e)
          case Ok(eligible) => Ok((ProductResult(ProductName(p), ProductGse(p), eligible, c.violations), c.steps))
  }

  /** The products in the order the analysis is read. */
  const ProductOrder := [HomeReady, HomePossible]

  /** How a product is read after the steps so far: `ProductOutcome` with the analysis fixed. */
  type Reader = (Product, seq<ReasoningStep>) -> Result<(ProductResult, seq<ReasoningStep>)>

  function ReaderFor(analysis: Dict): Reader {
    (p: Product, steps: seq<ReasoningStep>) => ProductOutcome(analysis, p, steps)
  }

  /** The product loop from the products left, with the results and steps so far. */
  function ProductsFrom(ps: seq<Product>, results: seq<ProductResult>, steps: seq<ReasoningStep>, read: Reader):
    Result<(seq<ProductResult>, seq<ReasoningStep>)>
    decreases |ps|
  {
    if |ps| == 0 then Ok((results, steps))
    else
      match read(ps[0], steps)
      case Err(e) => Err(e)
      case Ok((result, steps')) => ProductsFrom(ps[1..], results + [result], steps', read)
  }

  /** A suggestion's difficulty: `moderate` when absent or not one of the three. */
  function DifficultyOf(s: Dict): (d: Difficulty)
    ensures (GetOr(s, "difficulty", JStr("moderate")).JStr? && DifficultyFromString(GetOr(s, "difficulty", JStr("moderate")).s).Some?)
      ==> d == DifficultyFromString(GetOr(s, "difficulty", JStr("moderate")).s).value
    ensures !(GetOr(s, "difficulty", JStr("moderate")).JStr? && DifficultyFromString(GetOr(s, "difficulty", JStr("moderate")).s).Some?)
      ==> d == Moderate
  {
    var given := GetOr(s, "difficulty", JStr("moderate"));
    if given.JStr? && DifficultyFromString(given.s).Some? then DifficultyFromString(given.s).value else Moderate
  }

  /** One fix suggestion: an object whose description and impact are strings, both empty when absent. */
  function FixOf(s: Json): (r: Result<FixSuggestion>)
    ensures !s.JObj? ==> r == Err(AttributeError)
    ensures r.Ok? ==> r.value.difficulty == DifficultyOf(s.fields)
  {
    if !s.JObj? then Err(AttributeError)
    else
      var description := GetOr(s.fields, "description", JStr(""));
      var impact := GetOr(s.fields, "impact", JStr(""));
      if description.JStr? && impact.JStr? then Ok(FixSuggestion(description.s, Text(impact.s), DifficultyOf(s.fields)))
      else Err(ValidationError)
  }

  /** The suggestion loop from the suggestions converted so far, with `convert` for `FixOf`. */
  function FixesFrom(acc: seq<FixSuggestion>, items: seq<Json>, convert: Json -> Result<FixSuggestion>): Result<seq<FixSuggestion>>
    decreases |items|
  {
    if |items| == 0 then Ok(acc)
    else
      match convert(items[0])
      case Err(e) => Err(e)
      case Ok(f) => FixesFrom(acc + [f], items[1..], convert)
  }

  /** Every suggestion can be converted. */
  predicate AllConverted(items: seq<Json>, convert: Json -> Result<FixSuggestion>) {
    forall i :: 0 <= i < |items| ==> convert(items[i]).Ok?
  }

  /** The suggestions converted, in order. */
  function ConvertedAll(items: seq<Json>, convert: Json -> Result<FixSuggestion>): (r: seq<FixSuggestion>)
    requires AllConverted(items, convert)
    ensures |r| == |items|
    ensures forall i :: 0 <= i < |items| ==> Ok(r[i]) == convert(items[i])
  {
    seq(|items|, i requires 0 <= i < |items| => convert(items[i]).value)
  }

  /** The suggestion loop converts each suggestion in order, and fails exactly when one cannot be converted. */
  lemma {:induction false} FixesFromSpec(acc: seq<FixSuggestion>, items: seq<Json>, convert: Json -> Result<FixSuggestion>)
    ensures FixesFrom(acc, items, convert).Ok? <==> AllConverted(items, convert)
    ensures AllConverted(items, convert) ==> FixesFrom(acc, items, convert) == Ok(acc + ConvertedAll(items, convert))
    decreases |items|
  {
    if |items| > 0 {
      assert AllConverted(items, convert) <==> convert(items[0]).Ok? && AllConverted(items[1..], convert) by {
        assert forall i :: 0 < i < |items| ==> items[1..][i - 1] == items[i];
      }
      if convert(items[0]).Ok? {
        var next := acc + [convert(items[0]).value];
        FixesFromSpec(next, items[1..], convert);
        if AllConverted(items, convert) {
          assert ConvertedAll(items, convert) == [convert(items[0]).value] + ConvertedAll(items[1..], convert);
          assert next + ConvertedAll(items[1..], convert) == acc + ConvertedAll(items, convert);
        }
      }
    } else {
      assert acc + [] == acc;
    }
  }

  /** What `_convert_to_results` returns: the products, the recommendation, the fixes and the steps. */
  datatype Conversion = Conversion(products: seq<ProductResult>, recommendation: Json, fixes: seq<FixSuggestion>,
                                   steps: seq<ReasoningStep>)

  /** `_convert_to_results`: the analysis must be an object, read product by product, then suggestion by suggestion. */
  function Converted(analysis: Json): Result<Conversion> {
    if !analysis.JObj? then Err(AttributeError)
    else
      var d := analysis.fields;
      match ProductsFrom(ProductOrder, [], [], ReaderFor(d))
      case Err(e) => Err(e)
      case Ok((products, steps)) =>
        match Iterate(GetOr(d, "fix_suggestions", JArr([])))
        case Err(e) => Err(e)
        case Ok(items) =>
          match FixesFrom([], items, FixOf)
          case Err(e) => Err(e)
          case Ok(fixes) => Ok(Conversion(products, GetOr(d, "recommendation", JStr(DefaultRecommendation)), fixes, steps))
  }

  /** A product's rules, when its data is an object. */
  function RulesFor(analysis: Dict, p: Product): (r: Result<seq<Json>>)
    ensures r.Ok? ==> ProductData(analysis, p).JObj?
  {
    var data := ProductData(analysis, p);
    if data.JObj? then RulesOf(data.fields) else Err(AttributeError)
  }

  /** The product is read: its rules can be iterated and each has an outcome. */
  predicate RulesRead(analysis: Dict, p: Product) {
    RulesFor(analysis, p).Ok? && AllOutcomes(RulesFor(analysis, p).value, OutcomeFor(p))
  }

  /**
   * A product's result: its name and guide, the violations of its failed
   * rules in order, one per failed rule, and eligible as given or, when not
   * given, exactly when no rule failed; the steps of its rules follow the
   * steps before it. It fails exactly when the data is not an object, the
   * rules cannot be iterated, a rule cannot be read or the given
   * eligibility is not a boolean.
   */
  lemma ProductOutcomeSpec(analysis: Dict, p: Product, steps: seq<ReasoningStep>)
    ensures ProductOutcome(analysis, p, steps).Ok? <==>
      RulesRead(analysis, p) && Eligible(ProductData(analysis, p).fields, ViolationsOf(RulesFor(analysis, p).value, OutcomeFor(p))).Ok?
    ensures ProductOutcome(analysis, p, steps).Ok? ==>
      var rules := RulesFor(analysis, p).value;
      var (result, steps') := ProductOutcome(analysis, p, steps).value;
      && result.productName == ProductName(p) && result.gse == ProductGse(p)
      && result.violations == ViolationsOf(rules, OutcomeFor(p))
      && |result.violations| == FailedCount(rules)
      && Eligible(ProductData(analysis, p).fields, result.violations) == Ok(result.eligible)
      && steps' == steps + StepsOf(rules, OutcomeFor(p))
  {
    var data := ProductData(analysis, p);
    if data.JObj? && RulesOf(data.fields).Ok? {
      var rules := RulesOf(data.fields).value;
      CheckRulesSpec(Checked(steps, []), rules, OutcomeFor(p));
      if AllOutcomes(rules, OutcomeFor(p)) {
        ViolationsCount(rules, p);
        assert [] + ViolationsOf(rules, OutcomeFor(p)) == ViolationsOf(rules, OutcomeFor(p));
      }
    }
  }

  /** The product loop over two products reads the first, then the second after the first's steps. */
  lemma ProductsFromPair(p: Product, q: Product, read: Reader)
    requires ProductsFrom([p, q], [], [], read).Ok?
    ensures read(p, []).Ok? && read(q, read(p, []).value.1).Ok?
    ensures ProductsFrom([p, q], [], [], read).value == ([read(p, []).value.0, read(q, read(p, []).value.1).value.0], read(q, read(p, []).value.1).value.1)
  {
    assert [p, q][0] == p && [p, q][1..] == [q] && [q][0] == q && [q][1..] == [];
    var first := read(p, []);
    assert first.Ok?;
    var (r1, s1) := first.value;
    assert [] + [r1] == [r1];
    assert ProductsFrom([p, q], [], [], read) == ProductsFrom([q], [r1], s1, read);
    var second := read(q, s1);
    assert second.Ok?;
    var (r2, s2) := second.value;
    assert ProductsFrom([q], [r1], s1, read) == ProductsFrom([], [r1] + [r2], s2, read);
    assert [r1] + [r2] == [r1, r2];
  }

  /** Two products read in turn: each result with its own violations, and the steps of the first's rules before the second's. */
  lemma TwoProducts(analysis: Dict, p: Product, q: Product, products: seq<ProductResult>, steps: seq<ReasoningStep>)
    requires ProductsFrom([p, q], [], [], ReaderFor(analysis)) == Ok((products, steps))
    ensures RulesRead(analysis, p) && RulesRead(analysis, q)
    ensures |products| == 2
    ensures products[0].productName == ProductName(p) && products[0].gse == ProductGse(p)
    ensures products[1].productName == ProductName(q) && products[1].gse == ProductGse(q)
    ensures products[0].violations == ViolationsOf(RulesFor(analysis, p).value, OutcomeFor(p))
    ensures products[1].violations == ViolationsOf(RulesFor(analysis, q).value, OutcomeFor(q))
    ensures steps == StepsOf(RulesFor(analysis, p).value, OutcomeFor(p)) + StepsOf(RulesFor(analysis, q).value, OutcomeFor(q))
  {
    ProductsFromPair(p, q, ReaderFor(analysis));
    var (r1, s1) := ProductOutcome(analysis, p, []).value;
    ProductOutcomeSpec(analysis, p, []);
    ProductOutcomeSpec(analysis, q, s1);
    assert s1 == StepsOf(RulesFor(analysis, p).value, OutcomeFor(p));
  }

  /**
   * `_convert_to_results` reads HomeReady, then Home Possible: two results
   * with those names and guides, each with the violations of its own
   * failed rules, and the steps of HomeReady's rules before those of Home
   * Possible's.
   */
  lemma ConvertedProducts(analysis: Dict)
    requires ProductsFrom(ProductOrder, [], [], ReaderFor(analysis)).Ok?
    ensures RulesRead(analysis, HomeReady) && RulesRead(analysis, HomePossible)
    ensures var (products, steps) := ProductsFrom(ProductOrder, [], [], ReaderFor(analysis)).value;
      && |products| == 2
      && products[0].productName == "HomeReady" && products[0].gse == "fannie_mae"
      && products[1].productName == "Home Possible" && products[1].gse == "freddie_mac"
      && products[0].violations == ViolationsOf(RulesFor(analysis, HomeReady).value, OutcomeFor(HomeReady))
      && products[1].violations == ViolationsOf(RulesFor(analysis, HomePossible).value, OutcomeFor(HomePossible))
      && steps == StepsOf(RulesFor(analysis, HomeReady).value, OutcomeFor(HomeReady))
                  + StepsOf(RulesFor(analysis, HomePossible).value, OutcomeFor(HomePossible))
  {
    var (products, steps) := ProductsFrom(ProductOrder, [], [], ReaderFor(analysis)).value;
    TwoProducts(analysis, HomeReady, HomePossible, products, steps);
  }

  /** The fixes are the suggestions converted one by one, in order; a failing suggestion fails the conversion. */
  lemma ConvertedFixes(analysis: Dict, items: seq<Json>)
    requires Iterate(GetOr(analysis, "fix_suggestions", JArr([]))) == Ok(items)
    requires ProductsFrom(ProductOrder, [], [], ReaderFor(analysis)).Ok?
    ensures Converted(JObj(analysis)).Ok? <==> AllConverted(items, FixOf)
    ensures Converted(JObj(analysis)).Ok? ==> Converted(JObj(analysis)).value.fixes == ConvertedAll(items, FixOf)
  {
    FixesFromSpec([], items, FixOf);
    if AllConverted(items, FixOf) {
      assert [] + ConvertedAll(items, FixOf) == ConvertedAll(items, FixOf);
    }
  }

  /**
   * Any result but `pass` records a failed step, but only the result
   * `fail` records a violation: a rule the model could not verify fails in
   * the trace without counting against the product.
   */
  lemma OtherResultNoViolation(rule: Dict, p: Product)
    requires ResultOf(rule) != JStr(PassResult) && ResultOf(rule) != JStr(FailResult)
    requires RuleOutcome(JObj(rule), p).Ok?
    ensures RuleOutcome(JObj(rule), p).value.0.result == FailResult
    ensures RuleOutcome(JObj(rule), p).value.1 == []
  {
  }

  /** The rule loop for one product, and the product's result. */
  method CheckProduct(analysis: Dict, p: Product, steps0: seq<ReasoningStep>) returns (r: Result<(ProductResult, seq<ReasoningStep>)>)
    ensures r == ProductOutcome(analysis, p, steps0)
  {
    var data := ProductData(analysis, p);
    if !data.JObj? {
      return Err(AttributeError);
    }
    var rulesChecked := RulesOf(data.fields);
    if rulesChecked.Err? {
      return Err(rulesChecked.error);
    }
    var rules := rulesChecked.value;
    var steps, violations := steps0, [];
    for i := 0 to |rules|
      invariant CheckRules(Checked(steps, violations), rules[i..], OutcomeFor(p)) == CheckRules(Checked(steps0, []), rules, OutcomeFor(p))
    {
      assert rules[i..][0] == rules[i] && rules[i..][1..] == rules[i + 1..];
      var rule := rules[i];
      if !rule.JObj? {
        return Err(AttributeError);
      }
      var step := StepOf(rule.fields, p);
      if step.Err? {
        return Err(step.error);
      }
      steps := steps + [step.value];
      if Failed(rule.fields) {
        var violation := ViolationOf(rule.fields, p);
        if violation.Err? {
          return Err(violation.error);
        }
        violations := violations + [violation.value];
      } else {
        assert violations + [] == violations;
      }
    }
    assert rules[|rules|..] == [];
    var eligible := Eligible(data.fields, violations);
    if eligible.Err? {
      return Err(eligible.error);
    }
    r := Ok((ProductResult(ProductName(p), ProductGse(p), eligible.value, violations), steps));
  }

  /** `_convert_to_results`: the product loop, then the suggestion loop, then the recommendation. */
  method ConvertToResults(analysis: Json) returns (r: Result<Conversion>)
    ensures r == Converted(analysis)
  {
    if !analysis.JObj? {
      return Err(AttributeError);
    }
    var d := analysis.fields;
    var products: seq<ProductResult> := [];
    var steps: seq<ReasoningStep> := [];
    for k := 0 to |ProductOrder|
      invariant ProductsFrom(ProductOrder[k..], products, steps, ReaderFor(d)) == ProductsFrom(ProductOrder, [], [], ReaderFor(d))
    {
      assert ProductOrder[k..][0] == ProductOrder[k] && ProductOrder[k..][1..] == ProductOrder[k + 1..];
      var product := CheckProduct(d, ProductOrder[k], steps);
      if product.Err? {
        return Err(product.error);
      }
      products := products + [product.value.0];
      steps := product.value.1;
    }
    assert ProductOrder[|ProductOrder|..] == [];
    var suggestions := Iterate(GetOr(d, "fix_suggestions", JArr([])));
    if suggestions.Err? {
      return Err(suggestions.error);
    }
    var items := suggestions.value;
    var fixes: seq<FixSuggestion> := [];
    for i := 0 to |items|
      invariant FixesFrom(fixes, items[i..], FixOf) == FixesFrom([], items, FixOf)
    {
      assert items[i..][0] == items[i] && items[i..][1..] == items[i + 1..];
      var fix := FixOf(items[i]);
      if fix.Err? {
        return Err(fix.error);
      }
      fixes := fixes + [fix.value];
    }
    assert items[|items|..] == [];
    r := Ok(Conversion(products, GetOr(d, "recommendation", JStr(DefaultRecommendation)), fixes, steps));
  }

  /**
   * A conversion that succeeds read an object: two results, HomeReady's
   * and Home Possible's, and the steps of both products' rules.
   */
  lemma ConvertedShape(analysis: Json)
    requires Converted(analysis).Ok?
    ensures analysis.JObj? && RulesRead(analysis.fields, HomeReady) && RulesRead(analysis.fields, HomePossible)
    ensures var c := Converted(analysis).value;
      && |c.products| == 2
      && c.products[0].productName == "HomeReady" && c.products[0].gse == "fannie_mae"
      && c.products[1].productName == "Home Possible" && c.products[1].gse == "freddie_mac"
      && |c.steps| == |RulesFor(analysis.fields, HomeReady).value| + |RulesFor(analysis.fields, HomePossible).value|
  {
    var d := analysis.fields;
    ConvertedProducts(d);
    StepsOfEach(RulesFor(d, HomeReady).value, OutcomeFor(HomeReady));
    StepsOfEach(RulesFor(d, HomePossible).value, OutcomeFor(HomePossible));
  }

  // Checking a scenario

  /** The data the demo panel gets from a check: the retrievals and the reasoning steps. */
  datatype DemoData = DemoData(retrievals: seq<RagRetrieval>, steps: seq<ReasoningStep>)

  /** What `check_eligibility` returns: the products, the recommendation, the fixes and the demo data. */
  datatype Eligibility = Eligibility(products: seq<ProductResult>, recommendation: Json, fixes: seq<FixSuggestion>,
                                     demo: DemoData)

  /** The model call: the text of the first block of its answer to a prompt, or what the call raises. */
  type Complete = string -> Result<string>

  /** `analyze_with_claude` with a client: the model's answer, unfenced and parsed. */
  function Analysis(prompt: string, complete: Complete, parse: ModelAnswer.Parser): Result<Json> {
    match complete(prompt)
    case Err(e) => Err(e)
    case Ok(answer) => ModelAnswer.ParsedAnswer(answer, parse)
  }

  /** The eligibility check gets as far as the model: the retrieval succeeds with some chunks and the prompt can be built. */
  predicate ReachesModel(propertyType: string, loanInfo: string, search: Search, repr: Json -> string) {
    && Retrieved(propertyType, search).Ok?
    && |Retrieved(propertyType, search).value.0| > 0
    && AnalysisPrompt(loanInfo, Retrieved(propertyType, search).value.0, repr).Ok?
  }

  /**
   * `check_eligibility`: retrieval, a `ValueError` when nothing was
   * retrieved, the prompt, the model (a `ValueError` when the client cannot
   * be created, which `ready` says), then the conversion.
   */
  function EligibilityOutcome(propertyType: string, loanInfo: string, search: Search, complete: Complete,
                              parse: ModelAnswer.Parser, repr: Json -> string, ready: bool): Result<Eligibility>
  {
    match Retrieved(propertyType, search)
    case Err(e) => Err(e)
    case Ok((raw, retrievals)) =>
      if |raw| == 0 then Err(ValueError)
      else
        match AnalysisPrompt(loanInfo, raw, repr)
        case Err(e) => Err(e)
        case Ok(prompt) =>
          if !ready then Err(ValueError)
          else
            match Analysis(prompt, complete, parse)
            case Err(e) => Err(e)
            case Ok(analysis) =>
              match Converted(analysis)
              case Err(e) => Err(e)
              case Ok(c) => Ok(Eligibility(c.products, c.recommendation, c.fixes, DemoData(retrievals, c.steps)))
  }

  /** Lists that are all empty flatten to nothing. */
  lemma {:induction false} ConcatOfEmpty(s: seq<seq<Hit>>)
    requires forall i :: 0 <= i < |s| ==> s[i] == []
    ensures Embedding.Concat(s) == []
  {
    if |s| > 0 {
      assert forall i :: 0 < i < |s| ==> s[1..][i - 1] == s[i];
      ConcatOfEmpty(s[1..]);
    }
  }

  /**
   * When every search raises, each query contributes nothing, nothing is
   * retrieved, and the eligibility check stops with a `ValueError` before the model,
   * whether or not a client could be made.
   */
  lemma NoSearchNoCheck(propertyType: string, loanInfo: string, search: Search, complete: Complete,
                        parse: ModelAnswer.Parser, repr: Json -> string, ready: bool)
    requires forall q: string, k: nat, f: Json :: search(q, k, f).Err?
    ensures Retrieved(propertyType, search) == Ok(([], []))
    ensures !ReachesModel(propertyType, loanInfo, search, repr)
    ensures EligibilityOutcome(propertyType, loanInfo, search, complete, parse, repr, ready) == Err(ValueError)
  {
    var results := Searched(search, Queries(propertyType));
    forall i | 0 <= i < |results| ensures results[i] == [] {
      var q := Queries(propertyType)[i];
      assert search(q.query, TopKPerQuery, GseFilter(q.gse)).Err?;
    }
    ConcatOfEmpty(results);
    assert SortBy(NothingMerged.retrievals, Descending) == [];
  }

  /**
   * A check that succeeds gives HomeReady's and Home Possible's results, in
   * that order, and at most twelve retrievals, the most relevant first.
   */
  lemma EligibilityShape(propertyType: string, loanInfo: string, search: Search, complete: Complete,
                         parse: ModelAnswer.Parser, repr: Json -> string, ready: bool)
    requires EligibilityOutcome(propertyType, loanInfo, search, complete, parse, repr, ready).Ok?
    ensures ready && ReachesModel(propertyType, loanInfo, search, repr)
    ensures var e := EligibilityOutcome(propertyType, loanInfo, search, complete, parse, repr, ready).value;
      && |e.products| == 2
      && e.products[0].productName == "HomeReady" && e.products[1].productName == "Home Possible"
      && |e.demo.retrievals| <= MaxRetrievals
      && forall i, j :: 0 <= i < j < |e.demo.retrievals| ==> e.demo.retrievals[i].relevance >= e.demo.retrievals[j].relevance
  {
    var m := MergeFrom(NothingMerged, AllHits(propertyType, search), RetrievalOf).value;
    RankedOrder(m);
    var (raw, retrievals) := Ranked(m);
    var prompt := AnalysisPrompt(loanInfo, raw, repr).value;
    ConvertedShape(Analysis(prompt, complete, parse).value);
  }

  /** The service: the model's API key, and the client, created on first use. */
  class EligibilityReasonerService {
    const apiKey: string
    var hasClient: bool

    constructor (apiKey: string)
      ensures this.apiKey == apiKey && !hasClient
    {
      this.apiKey := apiKey;
      hasClient := false;
    }

    /** `_ensure_client`: the client is created once, and only with a key. */
    method EnsureClient() returns (r: Result<bool>)
      modifies this
      ensures r.Ok? <==> old(hasClient) || apiKey != ""
      ensures r.Err? ==> r.error == ValueError && !hasClient
      ensures r.Ok? ==> hasClient
    {
      if !hasClient {
        if apiKey == "" {
          return Err(ValueError);
        }
        hasClient := true;
      }
      r := Ok(true);
    }

    /** `analyze_with_claude`: a `ValueError` without a client; otherwise the model's answer, unfenced and parsed. */
    method AnalyzeWithModel(prompt: string, complete: Complete, parse: ModelAnswer.Parser) returns (r: Result<Json>)
      modifies this
      ensures !old(hasClient) && apiKey == "" ==> r == Err(ValueError) && !hasClient
      ensures old(hasClient) || apiKey != "" ==> hasClient && r == Analysis(prompt, complete, parse)
    {
      var client := EnsureClient();
      if client.Err? {
        return Err(client.error);
      }
      var response := complete(prompt);
      if response.Err? {
        return Err(response.error);
      }
      r := ModelAnswer.ParsedAnswer(response.value, parse);
    }

    /**
     * `check_eligibility`: the client is created only when the eligibility check gets
     * as far as the model, and the outcome is the one the steps describe.
     */
    method CheckEligibility(propertyType: string, loanInfo: string, search: Search, complete: Complete,
                            parse: ModelAnswer.Parser, repr: Json -> string) returns (r: Result<Eligibility>)
      modifies this
      ensures r == EligibilityOutcome(propertyType, loanInfo, search, complete, parse, repr, old(hasClient) || apiKey != "")
      ensures hasClient <==> old(hasClient) || (apiKey != "" && ReachesModel(propertyType, loanInfo, search, repr))
    {
      var context := RetrieveContext(propertyType, search);
      if context.Err? {
        return Err(context.error);
      }
      var (raw, retrievals) := context.value;
      if |raw| == 0 {
        return Err(ValueError);
      }
      var prompt := BuildAnalysisPrompt(loanInfo, raw, repr);
      if prompt.Err? {
        return Err(prompt.error);
      }
      var analysis := AnalyzeWithModel(prompt.value, complete, parse);
      if analysis.Err? {
        return Err(analysis.error);
      }
      var converted := ConvertToResults(analysis.value);
      if converted.Err? {
        return Err(converted.error);
      }
      var c := converted.value;
      r := Ok(Eligibility(c.products, c.recommendation, c.fixes, DemoData(retrievals, c.steps)));
    }
  }
}
