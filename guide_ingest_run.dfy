/**
 * The run of the guide ingestion script: the guide files it discovers, the
 * checkpoint of files already done, the chunks of a batch of guides
 * embedded twenty at a time with one retry, the batches of fifty guides,
 * and the summary it returns. The directory listing, the checkpoint file's
 * contents, the chunker, the embedding endpoint, the hash and the vector
 * store are parameters.
 */
module GuideIngestRun {
  import opened Wrappers
  import opened Strings
  import opened GuideIngest
  import Embedding

  type Vector = Embedding.Vector

  /** Guides per upsert batch. */
  const IngestBatchSize: nat := 50

  /** Chunk texts per call to the embedding endpoint. */
  const EmbedBatchSize: nat := 20

  function Min(a: nat, b: nat): nat { if a <= b then a else b }

  /** `s[i:i + n]` for `i` in `range(0, len(s), n)`: consecutive runs of `n`, the last one possibly shorter. */
  function Runs<T>(s: seq<T>, n: nat): seq<seq<T>>
    requires n > 0
    decreases |s|
  {
    if |s| == 0 then [] else [s[..Min(n, |s|)]] + Runs(s[Min(n, |s|)..], n)
  }

  /** The runs put back together give the sequence, each holds between one and `n` elements, and all but the last hold `n`. */
  lemma {:induction false} RunsPartition<T>(s: seq<T>, n: nat)
    requires n > 0
    ensures Embedding.Concat(Runs(s, n)) == s
    ensures forall k :: 0 <= k < |Runs(s, n)| ==> 0 < |Runs(s, n)[k]| <= n
    ensures forall k :: 0 <= k < |Runs(s, n)| - 1 ==> |Runs(s, n)[k]| == n
    decreases |s|
  {
    if |s| > 0 {
      var m := Min(n, |s|);
      RunsPartition(s[m..], n);
      assert Runs(s, n)[1..] == Runs(s[m..], n);
      assert s == s[..m] + s[m..];
      if |s| > n {
        assert |Runs(s[m..], n)| > 0;
      }
    }
  }

  // ---------------------------------------------------------------------
  // Discovery
  // ---------------------------------------------------------------------

  /**
   * A `*.txt` file of a guide directory: its name, its path and its text,
   * or none when reading it as UTF-8 raises.
   */
  datatype TextFile = TextFile(name: string, path: string, content: Option<string>)

  /** `parse_file_metadata`: a file that cannot be read has no metadata, as the `except` branch returns `None`. */
  function FileMetadata(f: TextFile): Option<Guide> {
    match f.content
    case None => None
    case Some(c) => MetadataOf(f.path, c)
  }

  /** The directories scanned, in this order. */
  function GuideDirs(dataDir: string): seq<string> {
    [dataDir + "/fannie_mae_guide", dataDir + "/fannie_mae_servicing_guide", dataDir + "/freddie_mac_guide"]
  }

  /** The guide a file contributes: none for a name starting with `_`, none without metadata. */
  function FileGuide(f: TextFile): seq<Guide> {
    if StartsWith(f.name, "_") then []
    else match FileMetadata(f)
      case None => []
      case Some(g) => [g]
  }

  /** The guides the files contribute, in the files' order. */
  function FilesGuides(files: seq<TextFile>): seq<Guide>
    decreases |files|
  {
    if |files| == 0 then [] else FilesGuides(files[..|files| - 1]) + FileGuide(files[|files| - 1])
  }

  /** The guides of the directories, in the directories' order; a missing directory (`None`) contributes none. */
  function Discovered(dirs: seq<string>, listing: string -> Option<seq<TextFile>>): seq<Guide>
    decreases |dirs|
  {
    if |dirs| == 0 then []
    else
      Discovered(dirs[..|dirs| - 1], listing)
      + match listing(dirs[|dirs| - 1]) case None => [] case Some(files) => FilesGuides(files)
  }

  /** One file of a directory: skipped when its name starts with `_`, none when it cannot be read, otherwise its metadata when it has any. */
  method ReadGuideFile(f: TextFile) returns (gs: seq<Guide>)
    ensures gs == FileGuide(f)
    ensures f.content.None? ==> gs == []
  {
    gs := [];
    if StartsWith(f.name, "_") {
      return;
    }
    match f.content
    case None =>
    case Some(c) =>
      var m := ParseFileMetadata(f.path, c);
      if m.Some? {
        gs := [m.value];
      }
  }

  /** The files of one directory, in the order listed. */
  method ReadGuideFiles(files: seq<TextFile>) returns (gs: seq<Guide>)
    ensures gs == FilesGuides(files)
  {
    gs := [];
    for i := 0 to |files|
      invariant gs == FilesGuides(files[..i])
    {
      assert files[..i + 1][..i] == files[..i];
      var more := ReadGuideFile(files[i]);
      gs := gs + more;
    }
    assert files[..|files|] == files;
  }

  /** `discover_guide_files`. */
  method DiscoverGuideFiles(dataDir: string, listing: string -> Option<seq<TextFile>>) returns (guides: seq<Guide>)
    ensures guides == Discovered(GuideDirs(dataDir), listing)
  {
    var dirs := GuideDirs(dataDir);
    guides := [];
    for d := 0 to |dirs|
      invariant guides == Discovered(dirs[..d], listing)
    {
      assert dirs[..d + 1][..d] == dirs[..d];
      var listed := listing(dirs[d]);
      if listed.Some? {
        var more := ReadGuideFiles(listed.value);
        guides := guides + more;
      }
    }
    assert dirs[..|dirs|] == dirs;
  }

  /** A file yields a guide: its name does not start with `_` and its text has metadata. */
  predicate Yields(f: TextFile, g: Guide) {
    !StartsWith(f.name, "_") && FileMetadata(f) == Some(g)
  }

  lemma {:induction false} FilesGuidesMember(files: seq<TextFile>, g: Guide)
    ensures g in FilesGuides(files) <==> exists i :: 0 <= i < |files| && Yields(files[i], g)
    decreases |files|
  {
    if |files| > 0 {
      var init := files[..|files| - 1];
      FilesGuidesMember(init, g);
      if exists i :: 0 <= i < |files| && Yields(files[i], g) {
        var i :| 0 <= i < |files| && Yields(files[i], g);
        if i < |files| - 1 {
          assert init[i] == files[i];
        }
      }
      if exists i :: 0 <= i < |init| && Yields(init[i], g) {
        var i :| 0 <= i < |init| && Yields(init[i], g);
        assert files[i] == init[i];
      }
    }
  }

  /** Some file of one of the directories that exist yields `g`. */
  predicate Listed(dirs: seq<string>, listing: string -> Option<seq<TextFile>>, g: Guide) {
    exists d, i ::
      && 0 <= d < |dirs| && listing(dirs[d]).Some? && 0 <= i < |listing(dirs[d]).value|
      && Yields(listing(dirs[d]).value[i], g)
  }

  /**
   * A guide is discovered exactly when a file of an existing directory
   * yields it: a file whose name starts with `_` never does.
   */
  lemma {:induction false} DiscoveredMember(dirs: seq<string>, listing: string -> Option<seq<TextFile>>, g: Guide)
    ensures g in Discovered(dirs, listing) <==> Listed(dirs, listing, g)
    decreases |dirs|
  {
    if |dirs| > 0 {
      var init := dirs[..|dirs| - 1];
      var last := dirs[|dirs| - 1];
      DiscoveredMember(init, listing, g);
      if listing(last).Some? {
        FilesGuidesMember(listing(last).value, g);
      }
      if Listed(dirs, listing, g) {
        var d, i :| 0 <= d < |dirs| && listing(dirs[d]).Some? && 0 <= i < |listing(dirs[d]).value|
          && Yields(listing(dirs[d]).value[i], g);
        if d < |dirs| - 1 {
          assert init[d] == dirs[d];
        }
      }
      if Listed(init, listing, g) {
        var d, i :| 0 <= d < |init| && listing(init[d]).Some? && 0 <= i < |listing(init[d]).value|
          && Yields(listing(init[d]).value[i], g);
        assert dirs[d] == init[d];
      }
    }
  }

  // ---------------------------------------------------------------------
  // Checkpoint
  // ---------------------------------------------------------------------

  /**
   * The checkpoint file: whether it exists, whether its text is a JSON
   * object, and the set of paths its `processed_files` list holds (empty
   * when the list is missing).
   */
  class CheckpointFile {
    var present: bool
    var readable: bool
    var processed: set<string>

    constructor (present: bool, readable: bool, processed: set<string>)
      ensures this.present == present && this.readable == readable && this.processed == processed
    {
      this.present := present;
      this.readable := readable;
      this.processed := processed;
    }

    /** What loading gives: the stored set when the file exists and reads, otherwise the empty set. */
    function Loaded(): set<string>
      reads this
    {
      if present && readable then processed else {}
    }

    /** `load_checkpoint`. */
    method Load() returns (s: set<string>)
      ensures s == Loaded()
      ensures present && readable ==> s == processed
      ensures !(present && readable) ==> s == {}
    {
      if present && readable {
        s := processed;
      } else {
        s := {};
      }
    }

    /** `save_checkpoint`: the file then exists and loads back the set written. */
    method Save(s: set<string>)
      modifies this
      ensures present && readable && processed == s
      ensures Loaded() == s
    {
      present := true;
      readable := true;
      processed := s;
    }

    /** `clear_checkpoint`: the file is gone, so loading gives the empty set. */
    method Clear()
      modifies this
      ensures !present && readable == old(readable) && processed == old(processed)
      ensures Loaded() == {}
    {
      present := false;
    }
  }

  // ---------------------------------------------------------------------
  // Embedding one batch of guides
  // ---------------------------------------------------------------------

  /**
   * The embedding endpoint: the vectors for a batch of texts, or the error
   * raised, on the first (0) or the second (1) attempt.
   */
  type Endpoint = (seq<string>, nat) -> Result<seq<Vector>>

  /** A chunk of a guide: the guide, the chunk's index in it, and its text. */
  datatype ChunkInfo = ChunkInfo(guide: Guide, index: nat, text: string)

  /** The chunks of one guide, numbered from 0. */
  function GuideChunks(g: Guide, texts: seq<string>): (r: seq<ChunkInfo>)
    ensures |r| == |texts|
    ensures forall i :: 0 <= i < |r| ==> r[i] == ChunkInfo(g, i, texts[i])
  {
    seq(|texts|, i requires 0 <= i < |texts| => ChunkInfo(g, i, texts[i]))
  }

  /** The chunks of the guides, guide after guide; `chunks` is `chunk_text` with size 500 and overlap 100. */
  function AllChunks(guides: seq<Guide>, chunks: string -> seq<string>): seq<ChunkInfo>
    decreases |guides|
  {
    if |guides| == 0 then []
    else AllChunks(guides[..|guides| - 1], chunks) + GuideChunks(guides[|guides| - 1], chunks(guides[|guides| - 1].content))
  }

  /** The texts of the chunks. */
  function Texts(infos: seq<ChunkInfo>): (r: seq<string>)
    ensures |r| == |infos| && forall j :: 0 <= j < |r| ==> r[j] == infos[j].text
  {
    seq(|infos|, j requires 0 <= j < |infos| => infos[j].text)
  }

  /** An embedding run: the vectors or the error, and the calls made, each as (batch number, attempt). */
  datatype EmbedRun = EmbedRun(result: Result<seq<Vector>>, calls: seq<(nat, nat)>)

  /** Batch `k` sent once, and once more after a failure. */
  function Attempts(batch: seq<string>, k: nat, embed: Endpoint): EmbedRun {
    match embed(batch, 0)
    case Ok(v) => EmbedRun(Ok(v), [(k, 0)])
    case Err(_) => EmbedRun(embed(batch, 1), [(k, 0), (k, 1)])
  }

  /** Vectors and calls made before a run, prepended to it. */
  function Continue(vs: seq<Vector>, calls: seq<(nat, nat)>, run: EmbedRun): EmbedRun {
    EmbedRun(if run.result.Ok? then Ok(vs + run.result.value) else run.result, calls + run.calls)
  }

  /** The batches from number `k` on, sent in order; the first batch that fails twice ends the run. */
  function EmbedBatches(bs: seq<seq<string>>, k: nat, embed: Endpoint): EmbedRun
    decreases |bs|
  {
    if |bs| == 0 then EmbedRun(Ok([]), [])
    else
      var a := Attempts(bs[0], k, embed);
      if a.result.Err? then a else Continue(a.result.value, a.calls, EmbedBatches(bs[1..], k + 1, embed))
  }

  lemma ContinueAssoc(vs: seq<Vector>, calls: seq<(nat, nat)>, ws: seq<Vector>, more: seq<(nat, nat)>, run: EmbedRun)
    ensures Continue(vs, calls, Continue(ws, more, run)) == Continue(vs + ws, calls + more, run)
  {
    assert calls + (more + run.calls) == calls + more + run.calls;
    if run.result.Ok? {
      assert vs + (ws + run.result.value) == vs + ws + run.result.value;
    }
  }

  /** A batch succeeds on its first or its second attempt. */
  predicate Succeeds(batch: seq<string>, embed: Endpoint) {
    embed(batch, 0).Ok? || embed(batch, 1).Ok?
  }

  /** The vectors of a batch that succeeds: those of its first successful attempt. */
  function Chosen(batch: seq<string>, embed: Endpoint): seq<Vector>
    requires Succeeds(batch, embed)
  {
    if embed(batch, 0).Ok? then embed(batch, 0).value else embed(batch, 1).value
  }

  /** The vectors of batches that all succeed, one batch after another. */
  function AllChosen(bs: seq<seq<string>>, embed: Endpoint): seq<Vector>
    requires forall j :: 0 <= j < |bs| ==> Succeeds(bs[j], embed)
    decreases |bs|
  {
    if |bs| == 0 then [] else Chosen(bs[0], embed) + AllChosen(bs[1..], embed)
  }

  /**
   * The run succeeds exactly when every batch succeeds on its first or
   * second attempt, and then its vectors are those attempts' vectors in
   * batch order.
   */
  lemma {:induction false} EmbedBatchesOk(bs: seq<seq<string>>, k: nat, embed: Endpoint)
    ensures EmbedBatches(bs, k, embed).result.Ok? <==> forall j :: 0 <= j < |bs| ==> Succeeds(bs[j], embed)
    ensures EmbedBatches(bs, k, embed).result.Ok? ==> EmbedBatches(bs, k, embed).result.value == AllChosen(bs, embed)
    decreases |bs|
  {
    if |bs| > 0 {
      EmbedBatchesOk(bs[1..], k + 1, embed);
      assert forall j :: 1 <= j < |bs| ==> bs[1..][j - 1] == bs[j];
      if Succeeds(bs[0], embed) {
        assert (forall j :: 0 <= j < |bs| ==> Succeeds(bs[j], embed)) <==> (forall j :: 0 <= j < |bs| - 1 ==> Succeeds(bs[1..][j], embed));
      }
    }
  }

  /** No call is made twice. */
  predicate Distinct(calls: seq<(nat, nat)>) {
    forall x, y :: 0 <= x < y < |calls| ==> calls[x] != calls[y]
  }

  /** The calls of a run are to its batches, on the first attempt, or on the second after the first failed. */
  lemma {:induction false} EmbedBatchesCallsAre(bs: seq<seq<string>>, k: nat, embed: Endpoint)
    ensures forall c :: c in EmbedBatches(bs, k, embed).calls ==>
      k <= c.0 < k + |bs| && (c.1 == 0 || (c.1 == 1 && embed(bs[c.0 - k], 0).Err?))
    decreases |bs|
  {
    if |bs| > 0 {
      var a := Attempts(bs[0], k, embed);
      if a.result.Ok? {
        var rest := EmbedBatches(bs[1..], k + 1, embed);
        EmbedBatchesCallsAre(bs[1..], k + 1, embed);
        assert forall c :: c in rest.calls ==> bs[1..][c.0 - (k + 1)] == bs[c.0 - k];
        assert EmbedBatches(bs, k, embed).calls == a.calls + rest.calls;
      }
    }
  }

  /** No call of a run is made twice: a batch gets at most one retry. */
  lemma {:induction false} EmbedBatchesDistinct(bs: seq<seq<string>>, k: nat, embed: Endpoint)
    ensures Distinct(EmbedBatches(bs, k, embed).calls)
    decreases |bs|
  {
    if |bs| > 0 {
      var a := Attempts(bs[0], k, embed);
      if a.result.Ok? {
        var rest := EmbedBatches(bs[1..], k + 1, embed);
        EmbedBatchesDistinct(bs[1..], k + 1, embed);
        EmbedBatchesCallsAre(bs[1..], k + 1, embed);
        var all := a.calls + rest.calls;
        assert forall x :: 0 <= x < |a.calls| ==> a.calls[x].0 == k;
        assert Distinct(a.calls);
        forall x, y | 0 <= x < y < |all| ensures all[x] != all[y] {
          if y >= |a.calls| {
            assert all[y] == rest.calls[y - |a.calls|];
            if x >= |a.calls| {
              assert all[x] == rest.calls[x - |a.calls|];
            } else {
              assert all[y] in rest.calls;
            }
          }
        }
        assert EmbedBatches(bs, k, embed).calls == all;
      }
    }
  }

  /**
   * A run that fails ends with the second attempt of a batch whose first
   * attempt failed too, and its error is that second attempt's.
   */
  lemma {:induction false} EmbedBatchesFailure(bs: seq<seq<string>>, k: nat, embed: Endpoint)
    ensures var run := EmbedBatches(bs, k, embed);
      run.result.Err? ==> |run.calls| > 0 && var (j, a) := run.calls[|run.calls| - 1];
        && k <= j < k + |bs| && a == 1 && embed(bs[j - k], 0).Err? && run.result == embed(bs[j - k], 1)
    decreases |bs|
  {
    if |bs| > 0 {
      var a := Attempts(bs[0], k, embed);
      if a.result.Ok? {
        var rest := EmbedBatches(bs[1..], k + 1, embed);
        EmbedBatchesFailure(bs[1..], k + 1, embed);
        if rest.result.Err? {
          var all := a.calls + rest.calls;
          assert EmbedBatches(bs, k, embed).calls == all;
          assert all[|all| - 1] == rest.calls[|rest.calls| - 1];
          var (j, _) := rest.calls[|rest.calls| - 1];
          assert bs[1..][j - (k + 1)] == bs[j - k];
        }
      }
    }
  }

  /** With an endpoint that gives one vector per text, a run that succeeds gives one vector per text. */
  lemma {:induction false} EmbedBatchesLength(bs: seq<seq<string>>, k: nat, embed: Endpoint)
    requires forall t: seq<string>, a: nat :: embed(t, a).Ok? ==> |embed(t, a).value| == |t|
    ensures EmbedBatches(bs, k, embed).result.Ok? ==> |EmbedBatches(bs, k, embed).result.value| == |Embedding.Concat(bs)|
    decreases |bs|
  {
    if |bs| > 0 {
      EmbedBatchesLength(bs[1..], k + 1, embed);
    }
  }

  /** A record for the vector store. */
  datatype VectorRecord = VectorRecord(
    id: string, values: Vector, text: string, gse: Gse, section: string, title: string,
    chunkIndex: nat, sourceFile: string)

  /** The id of a chunk: the hash of `{section}_{index}_{the first 50 characters of the text}`. */
  function ChunkId(c: ChunkInfo, hash: string -> string): string {
    hash(c.guide.section + "_" + NatToString(c.index) + "_" + Take(c.text, 50))
  }

  /** The record of a chunk and its vector. */
  function RecordOf(c: ChunkInfo, v: Vector, hash: string -> string): VectorRecord {
    VectorRecord(ChunkId(c, hash), v, c.text, c.guide.gse, c.guide.section, c.guide.title, c.index, c.guide.sourceFile)
  }

  /** `zip(chunk_metadata, all_embeddings)`: as many records as the shorter list. */
  function Zipped(infos: seq<ChunkInfo>, vs: seq<Vector>, hash: string -> string): (r: seq<VectorRecord>)
    ensures |r| == Min(|infos|, |vs|)
    ensures forall k :: 0 <= k < |r| ==> r[k] == RecordOf(infos[k], vs[k], hash)
  {
    seq(Min(|infos|, |vs|), k requires 0 <= k < Min(|infos|, |vs|) => RecordOf(infos[k], vs[k], hash))
  }

  /** What embedding a batch of guides gives: the records or the error, and the calls made. */
  datatype BatchRun = BatchRun(result: Result<seq<VectorRecord>>, calls: seq<(nat, nat)>)

  /** `chunk_and_embed_batch` as a value: no chunks make no call; otherwise the chunk texts go in runs of 20. */
  function EmbedGuides(guides: seq<Guide>, chunks: string -> seq<string>, embed: Endpoint, hash: string -> string): BatchRun {
    var infos := AllChunks(guides, chunks);
    if |infos| == 0 then BatchRun(Ok([]), [])
    else
      var run := EmbedBatches(Runs(Texts(infos), EmbedBatchSize), 0, embed);
      match run.result
      case Ok(vs) => BatchRun(Ok(Zipped(infos, vs, hash)), run.calls)
      case Err(e) => BatchRun(Err(e), run.calls)
  }

  /**
   * With an endpoint that gives one vector per text, a batch that embeds
   * gives one record per chunk, in order, each carrying its chunk's text,
   * index and guide.
   */
  lemma EmbedGuidesRecords(guides: seq<Guide>, chunks: string -> seq<string>, embed: Endpoint, hash: string -> string)
    requires forall t: seq<string>, a: nat :: embed(t, a).Ok? ==> |embed(t, a).value| == |t|
    ensures var b := EmbedGuides(guides, chunks, embed, hash); var infos := AllChunks(guides, chunks);
      b.result.Ok? ==> (
        && |b.result.value| == |infos|
        && forall k :: 0 <= k < |infos| ==> var r := b.result.value[k];
          r.text == infos[k].text && r.chunkIndex == infos[k].index && r.section == infos[k].guide.section
          && r.sourceFile == infos[k].guide.sourceFile && r.id == ChunkId(infos[k], hash))
  {
    var infos := AllChunks(guides, chunks);
    if |infos| > 0 {
      RunsPartition(Texts(infos), EmbedBatchSize);
      EmbedBatchesLength(Runs(Texts(infos), EmbedBatchSize), 0, embed);
    }
  }

  /** The chunks of all the guides and their texts, guide after guide. */
  method GatherChunks(guides: seq<Guide>, chunks: string -> seq<string>) returns (infos: seq<ChunkInfo>, texts: seq<string>)
    ensures infos == AllChunks(guides, chunks) && texts == Texts(infos)
  {
    infos := [];
    texts := [];
    for g := 0 to |guides|
      invariant infos == AllChunks(guides[..g], chunks)
      invariant texts == Texts(infos)
    {
      assert guides[..g + 1][..g] == guides[..g];
      var cs := chunks(guides[g].content);
      for i := 0 to |cs|
        invariant infos == AllChunks(guides[..g], chunks) + GuideChunks(guides[g], cs)[..i]
        invariant texts == Texts(infos)
      {
        assert GuideChunks(guides[g], cs)[..i + 1] == GuideChunks(guides[g], cs)[..i] + [ChunkInfo(guides[g], i, cs[i])];
        infos := infos + [ChunkInfo(guides[g], i, cs[i])];
        texts := texts + [cs[i]];
      }
      assert GuideChunks(guides[g], cs)[..|cs|] == GuideChunks(guides[g], cs);
    }
    assert guides[..|guides|] == guides;
  }

  lemma ContinueNil(run: EmbedRun)
    ensures Continue([], [], run) == run
  {
    assert [] + run.calls == run.calls;
    if run.result.Ok? {
      assert [] + run.result.value == run.result.value;
    }
  }

  /** The loop over `range(0, len(all_chunks), 20)`: each batch sent, and sent again once after a failure. */
  method EmbedInBatches(texts: seq<string>, embed: Endpoint) returns (r: Result<seq<Vector>>, calls: seq<(nat, nat)>)
    ensures EmbedRun(r, calls) == EmbedBatches(Runs(texts, EmbedBatchSize), 0, embed)
  {
    ghost var whole := EmbedBatches(Runs(texts, EmbedBatchSize), 0, embed);
    assert texts[0..] == texts;
    ContinueNil(whole);
    var all: seq<Vector> := [];
    calls := [];
    var i := 0;
    var k := 0;
    while i < |texts|
      invariant 0 <= i <= |texts|
      invariant whole == Continue(all, calls, EmbedBatches(Runs(texts[i..], EmbedBatchSize), k, embed))
      decreases |texts| - i
    {
      var n := Min(EmbedBatchSize, |texts| - i);
      var batch := texts[i..i + n];
      assert texts[i..][..n] == batch && texts[i..][n..] == texts[i + n..];
      ghost var bs := Runs(texts[i..], EmbedBatchSize);
      assert bs[0] == batch && bs[1..] == Runs(texts[i + n..], EmbedBatchSize);
      var first := embed(batch, 0);
      if first.Ok? {
        ContinueAssoc(all, calls, first.value, [(k, 0)], EmbedBatches(bs[1..], k + 1, embed));
        all := all + first.value;
        calls := calls + [(k, 0)];
      } else {
        var second := embed(batch, 1);
        if second.Err? {
          calls := calls + [(k, 0), (k, 1)];
          return Err(second.error), calls;
        }
        ContinueAssoc(all, calls, second.value, [(k, 0), (k, 1)], EmbedBatches(bs[1..], k + 1, embed));
        all := all + second.value;
        calls := calls + [(k, 0), (k, 1)];
      }
      i := i + n;
      k := k + 1;
    }
    assert texts[i..] == [];
    assert all + [] == all;
    r := Ok(all);
  }

  /** `chunk_and_embed_batch`: the chunks of all the guides, embedded 20 at a time with one retry, zipped into records. */
  method ChunkAndEmbedBatch(guides: seq<Guide>, chunks: string -> seq<string>, embed: Endpoint, hash: string -> string)
    returns (r: Result<seq<VectorRecord>>, calls: seq<(nat, nat)>)
    ensures BatchRun(r, calls) == EmbedGuides(guides, chunks, embed, hash)
  {
    var infos, texts := GatherChunks(guides, chunks);
    if |texts| == 0 {
      return Ok([]), [];
    }
    var embedded;
    embedded, calls := EmbedInBatches(texts, embed);
    if embedded.Err? {
      return Err(embedded.error), calls;
    }
    var records := ZipRecords(infos, embedded.value, hash);
    r := Ok(records);
  }

  /** The records of `zip(chunk_metadata, all_embeddings)`, built one pair at a time. */
  method ZipRecords(infos: seq<ChunkInfo>, all: seq<Vector>, hash: string -> string) returns (records: seq<VectorRecord>)
    ensures records == Zipped(infos, all, hash)
  {
    records := [];
    var m := Min(|infos|, |all|);
    for j := 0 to m
      invariant records == Zipped(infos, all, hash)[..j]
    {
      records := records + [RecordOf(infos[j], all[j], hash)];
    }
    assert Zipped(infos, all, hash)[..m] == Zipped(infos, all, hash);
  }

  // ---------------------------------------------------------------------
  // Ingestion
  // ---------------------------------------------------------------------

  /** The vector store's upsert: `None` when it succeeds, otherwise the error raised. */
  type Upsert = seq<VectorRecord> -> Option<PyError>

  /** What the run calls out to: `chunk_text` (size 500, overlap 100), the embedding endpoint, the hash, the upsert. */
  datatype Services = Services(chunks: string -> seq<string>, embed: Endpoint, hash: string -> string, upsert: Upsert)

  /** The guides whose file is not in the checkpoint, in their order. */
  function Remaining(guides: seq<Guide>, done: set<string>): (r: seq<Guide>)
    ensures |r| <= |guides|
    decreases |guides|
  {
    if |guides| == 0 then []
    else (if guides[0].sourceFile in done then [] else [guides[0]]) + Remaining(guides[1..], done)
  }

  /** The guides whose file is in the checkpoint, in their order. */
  function AlreadyDone(guides: seq<Guide>, done: set<string>): (r: seq<Guide>)
    decreases |guides|
  {
    if |guides| == 0 then []
    else (if guides[0].sourceFile in done then [guides[0]] else []) + AlreadyDone(guides[1..], done)
  }

  /** A guide remains exactly when it is one of the guides and its file is not in the checkpoint. */
  lemma {:induction false} RemainingMember(guides: seq<Guide>, done: set<string>, g: Guide)
    ensures g in Remaining(guides, done) <==> g in guides && g.sourceFile !in done
    decreases |guides|
  {
    if |guides| > 0 {
      RemainingMember(guides[1..], done, g);
      assert g in guides <==> g == guides[0] || g in guides[1..];
    }
  }

  /** The filter keeps the order: filtering two lists one after the other is filtering each. */
  lemma {:induction false} RemainingConcat(a: seq<Guide>, b: seq<Guide>, done: set<string>)
    ensures Remaining(a + b, done) == Remaining(a, done) + Remaining(b, done)
    decreases |a|
  {
    if |a| > 0 {
      RemainingConcat(a[1..], b, done);
      assert (a + b)[1..] == a[1..] + b;
    } else {
      assert a + b == b;
    }
  }

  /** Every guide either remains or was done already. */
  lemma {:induction false} RemainingSplit(guides: seq<Guide>, done: set<string>)
    ensures |Remaining(guides, done)| + |AlreadyDone(guides, done)| == |guides|
    decreases |guides|
  {
    if |guides| > 0 {
      RemainingSplit(guides[1..], done);
    }
  }

  /** The files of the guides. */
  function Sources(gs: seq<Guide>): set<string> {
    set g | g in gs :: g.sourceFile
  }

  lemma SourcesConcat(a: seq<Guide>, b: seq<Guide>)
    ensures Sources(a + b) == Sources(a) + Sources(b)
  {
    assert forall g :: g in a + b <==> g in a || g in b;
  }

  /** The vectors of a batch of guides, then the upsert when there are any: the number of vectors stored, or the error. */
  function BatchOutcome(batch: seq<Guide>, sv: Services): Result<nat> {
    match EmbedGuides(batch, sv.chunks, sv.embed, sv.hash).result
    case Err(e) => Err(e)
    case Ok(vs) =>
      if |vs| == 0 then Ok(0)
      else match sv.upsert(vs)
        case Some(e) => Err(e)
        case None => Ok(|vs|)
  }

  /** An ingestion run: the vectors stored or the error raised, and the set the checkpoint holds. */
  datatype IngestRun = IngestRun(result: Result<nat>, done: set<string>)

  /** Vectors stored before a run, added to it. */
  function Add(n: nat, run: IngestRun): IngestRun {
    IngestRun(if run.result.Ok? then Ok(n + run.result.value) else run.result, run.done)
  }

  /**
   * The batches in order: a batch that stores adds its files to the set,
   * and the first one that fails ends the run with the set as it was.
   */
  function IngestBatches(bs: seq<seq<Guide>>, done: set<string>, sv: Services): IngestRun
    decreases |bs|
  {
    if |bs| == 0 then IngestRun(Ok(0), done)
    else match BatchOutcome(bs[0], sv)
      case Err(e) => IngestRun(Err(e), done)
      case Ok(n) => Add(n, IngestBatches(bs[1..], done + Sources(bs[0]), sv))
  }

  /** How many batches, from the first, store without error. */
  function Stored(bs: seq<seq<Guide>>, sv: Services): (j: nat)
    ensures j <= |bs|
    ensures forall i :: 0 <= i < j ==> BatchOutcome(bs[i], sv).Ok?
    ensures j < |bs| ==> BatchOutcome(bs[j], sv).Err?
    decreases |bs|
  {
    if |bs| == 0 || BatchOutcome(bs[0], sv).Err? then 0 else 1 + Stored(bs[1..], sv)
  }

  /**
   * The checkpoint after a run holds the files of exactly the batches that
   * stored, added to what it held before; the run succeeds exactly when
   * every batch stores, and otherwise raises the first failing batch's
   * error.
   */
  lemma {:induction false} IngestBatchesDone(bs: seq<seq<Guide>>, done: set<string>, sv: Services)
    ensures DoneMeets(bs, done, sv)
    decreases |bs|
  {
    if |bs| > 0 {
      if BatchOutcome(bs[0], sv).Err? {
        assert bs[..0] == [];
      } else {
        IngestBatchesDone(bs[1..], done + Sources(bs[0]), sv);
        DoneStep(bs, done, sv);
      }
    }
  }

  /**
   * The run over `bs` from `done`: its set is `done` with the files of the
   * batches that store; it succeeds exactly when all of them do, and
   * otherwise fails with the first failing batch's error.
   */
  predicate DoneMeets(bs: seq<seq<Guide>>, done: set<string>, sv: Services) {
    var run := IngestBatches(bs, done, sv); var j := Stored(bs, sv);
    && run.done == done + Sources(Embedding.Concat(bs[..j]))
    && (run.result.Ok? <==> j == |bs|)
    && (j < |bs| ==> run.result == Err(BatchOutcome(bs[j], sv).error))
  }

  /** A first batch that stores carries the promise for the rest of the run over to the whole run. */
  lemma DoneStep(bs: seq<seq<Guide>>, done: set<string>, sv: Services)
    requires |bs| > 0 && BatchOutcome(bs[0], sv).Ok?
    requires DoneMeets(bs[1..], done + Sources(bs[0]), sv)
    ensures DoneMeets(bs, done, sv)
  {
    var j := Stored(bs, sv);
    assert j == 1 + Stored(bs[1..], sv);
    assert bs[..j][0] == bs[0] && bs[..j][1..] == bs[1..][..j - 1];
    SourcesConcat(bs[0], Embedding.Concat(bs[1..][..j - 1]));
    if j - 1 < |bs| - 1 {
      assert bs[1..][j - 1] == bs[j];
    }
  }

  /** A run that stores every batch adds exactly the files of the guides it was given to the checkpoint. */
  lemma SuccessDone(rem: seq<Guide>, done: set<string>, sv: Services)
    requires IngestBatches(Runs(rem, IngestBatchSize), done, sv).result.Ok?
    ensures IngestBatches(Runs(rem, IngestBatchSize), done, sv).done == done + Sources(rem)
  {
    var bs := Runs(rem, IngestBatchSize);
    IngestBatchesDone(bs, done, sv);
    RunsPartition(rem, IngestBatchSize);
    assert bs[..|bs|] == bs;
  }

  /** After a run that succeeds, the checkpoint holds every guide's file, so resuming finds nothing left to do. */
  lemma ResumeAfterSuccess(guides: seq<Guide>, done: set<string>, sv: Services)
    requires IngestBatches(Runs(Remaining(guides, done), IngestBatchSize), done, sv).result.Ok?
    ensures var run := IngestBatches(Runs(Remaining(guides, done), IngestBatchSize), done, sv);
      run.done == done + Sources(Remaining(guides, done)) && Remaining(guides, run.done) == []
  {
    var rem := Remaining(guides, done);
    SuccessDone(rem, done, sv);
    var d := done + Sources(rem);
    if |Remaining(guides, d)| > 0 {
      var g := Remaining(guides, d)[0];
      RemainingMember(guides, d, g);
      RemainingMember(guides, done, g);
    }
  }

  /** The guides skipped as already done: those not remaining. */
  function Skipped(guides: seq<Guide>, done: set<string>): nat {
    |guides| - |Remaining(guides, done)|
  }

  /** The skipped count is the number of guides whose file the checkpoint held; with none remaining it is all of them. */
  lemma SkippedCountsDone(guides: seq<Guide>, done: set<string>)
    ensures Skipped(guides, done) == |AlreadyDone(guides, done)|
    ensures Remaining(guides, done) == [] ==> Skipped(guides, done) == |guides|
  {
    RemainingSplit(guides, done);
  }

  /**
   * The skipped count as the batch path computes it: the size of the
   * checkpoint's set after a run that stored every batch, less the guides
   * processed. A checkpoint entry no guide has counts as skipped.
   */
  function SkippedAsWritten(done: set<string>, rem: seq<Guide>): int {
    |done + Sources(rem)| - |rem|
  }

  /**
   * A checkpoint that names a file no guide has any more (here
   * `stale.txt`) makes the batch path report one guide skipped when
   * none was.
   */
  lemma SkippedAsWrittenStale()
    ensures var g := Guide("a.txt", "", "1101.1", "", FreddieMac);
      && Remaining([g], {"stale.txt"}) == [g]
      && SkippedAsWritten({"stale.txt"}, [g]) == 1
      && Skipped([g], {"stale.txt"}) == 0
  {
    var g := Guide("a.txt", "", "1101.1", "", FreddieMac);
    assert "a.txt" != "stale.txt" by { assert "a.txt"[0] != "stale.txt"[0]; }
    assert Remaining([g], {"stale.txt"}) == [g] by {
      assert [g][1..] == [];
    }
    assert Sources([g]) == {"a.txt"};
    assert {"stale.txt"} + {"a.txt"} == {"stale.txt", "a.txt"};
  }

  /** The summary `ingest_guides` returns. */
  datatype Summary = Summary(processed: nat, vectors: nat, skipped: int)

  /** One batch: chunk and embed it, then upsert its records when there are any. */
  method StoreBatch(batch: seq<Guide>, sv: Services) returns (r: Result<nat>)
    ensures r == BatchOutcome(batch, sv)
  {
    var vectors, _ := ChunkAndEmbedBatch(batch, sv.chunks, sv.embed, sv.hash);
    if vectors.Err? {
      return Err(vectors.error);
    }
    r := Ok(0);
    if |vectors.value| > 0 {
      var failure := sv.upsert(vectors.value);
      if failure.Some? {
        return Err(failure.value);
      }
      r := Ok(|vectors.value|);
    }
  }

  /** `for guide in batch: processed_files.add(guide["source_file"])`. */
  method AddSources(processed: set<string>, batch: seq<Guide>) returns (after: set<string>)
    ensures after == processed + Sources(batch)
  {
    after := processed;
    for j := 0 to |batch|
      invariant after == processed + Sources(batch[..j])
    {
      SourcesConcat(batch[..j], [batch[j]]);
      assert batch[..j + 1] == batch[..j] + [batch[j]];
      after := after + {batch[j].sourceFile};
    }
    assert batch[..|batch|] == batch;
  }

  /** One batch of a run that stores, followed by the rest of the run with its files added. */
  lemma IngestStep(total: nat, bs: seq<seq<Guide>>, done: set<string>, sv: Services)
    requires |bs| > 0 && BatchOutcome(bs[0], sv).Ok?
    ensures Add(total, IngestBatches(bs, done, sv))
      == Add(total + BatchOutcome(bs[0], sv).value, IngestBatches(bs[1..], done + Sources(bs[0]), sv))
  {
  }

  /** One batch of a run that fails: the run ends with its error. */
  lemma IngestStop(total: nat, bs: seq<seq<Guide>>, done: set<string>, sv: Services)
    requires |bs| > 0 && BatchOutcome(bs[0], sv).Err?
    ensures Add(total, IngestBatches(bs, done, sv)) == IngestRun(Err(BatchOutcome(bs[0], sv).error), done)
  {
  }

  /**
   * The loop over `range(0, len(remaining_guides), 50)`, one pass per
   * slice `remaining_guides[batch_start:batch_end]` (the runs of 50): each
   * batch stored, its files added and the checkpoint saved; on an error
   * the checkpoint is saved as it stands and the error raised.
   */
  method RunBatches(rem: seq<Guide>, done: set<string>, cp: CheckpointFile, sv: Services)
    returns (r: Result<nat>, processed: set<string>)
    requires |rem| > 0
    modifies cp
    ensures IngestRun(r, processed) == IngestBatches(Runs(rem, IngestBatchSize), done, sv)
    ensures cp.present && cp.readable && cp.processed == processed
  {
    var batches := Runs(rem, IngestBatchSize);
    assert batches[0..] == batches;
    processed := done;
    var total: nat := 0;
    var k := 0;
    while k < |batches|
      invariant 0 <= k <= |batches|
      invariant IngestBatches(batches, done, sv) == Add(total, IngestBatches(batches[k..], processed, sv))
      invariant k > 0 ==> cp.present && cp.readable && cp.processed == processed
      decreases |batches| - k
    {
      var before := processed;
      var outcome;
      outcome, processed := RunBatch(batches[k], before, cp, sv);
      BatchStep(IngestBatches(batches, done, sv), total, batches, k, before, outcome, processed, sv);
      if outcome.Err? {
        return Err(outcome.error), processed;
      }
      total, k := total + outcome.value, k + 1;
    }
    assert batches[k..] == [];
    r := Ok(total);
  }

  /**
   * One pass of the batch loop: the batch stored, its files added when it
   * stores, and the checkpoint saved either way.
   */
  method RunBatch(batch: seq<Guide>, processed: set<string>, cp: CheckpointFile, sv: Services)
    returns (outcome: Result<nat>, after: set<string>)
    modifies cp
    ensures outcome == BatchOutcome(batch, sv)
    ensures outcome.Ok? ==> after == processed + Sources(batch)
    ensures outcome.Err? ==> after == processed
    ensures cp.present && cp.readable && cp.processed == after
  {
    outcome := StoreBatch(batch, sv);
    after := processed;
    if outcome.Ok? {
      after := AddSources(processed, batch);
    }
    cp.Save(after);
  }

  /**
   * One pass of the loop in terms of the run: a batch that fails ends it
   * with its error and the set unchanged; one that stores leaves its
   * count added to the run of the batches after it, from the set with its
   * files added.
   */
  lemma BatchStep(whole: IngestRun, total: nat, batches: seq<seq<Guide>>, k: nat, before: set<string>,
                  outcome: Result<nat>, after: set<string>, sv: Services)
    requires k < |batches| && whole == Add(total, IngestBatches(batches[k..], before, sv))
    requires outcome == BatchOutcome(batches[k], sv)
    requires outcome.Ok? ==> after == before + Sources(batches[k])
    requires outcome.Err? ==> after == before
    ensures outcome.Err? ==> whole == IngestRun(Err(outcome.error), after)
    ensures outcome.Ok? ==> whole == Add(total + outcome.value, IngestBatches(batches[k + 1..], after, sv))
  {
    assert batches[k..][0] == batches[k];
    if outcome.Err? {
      IngestStop(total, batches[k..], before, sv);
    } else {
      IngestStep(total, batches[k..], before, sv);
      assert batches[k..][1..] == batches[k + 1..];
    }
  }

  /** The summary of a run over the remaining guides: the error it raised, or the counts the batch path returns. */
  function RunSummary(result: Result<nat>, rem: seq<Guide>, done: set<string>): Result<Summary> {
    match result
    case Ok(n) => Ok(Summary(|rem|, n, SkippedAsWritten(done, rem)))
    case Err(e) => Err(e)
  }

  /** The batch path of `ingest_guides`, once some guide remains. */
  method IngestRemaining(rem: seq<Guide>, done: set<string>, cp: CheckpointFile, sv: Services) returns (r: Result<Summary>)
    requires |rem| > 0
    modifies cp
    ensures var run := IngestBatches(Runs(rem, IngestBatchSize), done, sv);
      && cp.present && cp.readable && cp.processed == run.done
      && r == RunSummary(run.result, rem, done)
  {
    var vectors, processed := RunBatches(rem, done, cp, sv);
    if vectors.Err? {
      return Err(vectors.error);
    }
    SuccessDone(rem, done, sv);
    r := Ok(Summary(|rem|, vectors.value, |processed| - |rem|));
  }

  /**
   * `ingest_guides`: the guides not in the checkpoint, in batches of 50;
   * after each batch that stores, and before an error is raised, the
   * checkpoint is saved. The skipped count is computed as written: the
   * size of the checkpoint's set at the end less the guides processed
   * (`SkippedAsWritten`), not the number of guides passed over (`Skipped`).
   */
  method IngestGuides(guides: seq<Guide>, cp: CheckpointFile, sv: Services, resume: bool) returns (r: Result<Summary>)
    modifies cp
    ensures var done := if resume then old(cp.Loaded()) else {};
      var rem := Remaining(guides, done);
      && (rem == [] ==> r == Ok(Summary(0, 0, |guides|)) && unchanged(cp))
      && (rem != [] ==> var run := IngestBatches(Runs(rem, IngestBatchSize), done, sv);
        && cp.present && cp.readable && cp.processed == run.done
        && r == RunSummary(run.result, rem, done))
  {
    var processed: set<string> := {};
    if resume {
      processed := cp.Load();
    }
    var rem := Remaining(guides, processed);
    if |rem| == 0 {
      return Ok(Summary(0, 0, |guides|));
    }
    r := IngestRemaining(rem, processed, cp, sv);
  }
}
