/**
 * The embedding service's own logic: the token-window chunker, and the
 * batching of `embed_texts` with its guard against an empty input. The
 * tokenizer, the md5 digest and the embedding endpoint are parameters.
 */
module Embedding {
  import opened Wrappers
  import opened Strings

  type Token = nat
  type Vector = seq<real>

  /** The record `chunk_text` emits for one window of tokens. */
  datatype Chunk = Chunk(id: string, text: string, startChar: nat, endChar: nat, tokenCount: nat)

  /** The tokenizer's `encode`/`decode` and the md5 hex digest. */
  datatype Codec = Codec(encode: string -> seq<Token>, decode: seq<Token> -> string, digest: string -> string)

  function Min(a: int, b: int): int { if a <= b then a else b }

  /** Where chunk `k` starts: each window moves on by `chunk_size - chunk_overlap` tokens. */
  function StartOf(k: nat, size: nat, overlap: nat): nat
    requires overlap < size
  {
    k * (size - overlap)
  }

  /** The chunk for the window of at most `size` tokens from `start`. */
  function ChunkAt(tokens: seq<Token>, start: nat, size: nat, c: Codec): (ch: Chunk)
    requires start < |tokens| && size > 0
    ensures 0 < ch.tokenCount <= size && start + ch.tokenCount <= |tokens|
    ensures ch.tokenCount == size || start + ch.tokenCount == |tokens|
    ensures ch.text == c.decode(tokens[start..start + ch.tokenCount])
    ensures ch.startChar == |c.decode(tokens[..start])| && ch.endChar == ch.startChar + |ch.text|
    ensures ch.id == Take(c.digest(ch.text), 12)
  {
    var end := Min(start + size, |tokens|);
    var text := c.decode(tokens[start..end]);
    var startChar := |c.decode(tokens[..start])|;
    Chunk(Take(c.digest(text), 12), text, startChar, startChar + |text|, end - start)
  }

  /**
   * The chunks of `tokens`: none for no tokens; chunk `k` is the window at
   * `StartOf(k)`; every window but the last stops short of the end, and the
   * last reaches it.
   */
  predicate Chunked(tokens: seq<Token>, size: nat, overlap: nat, c: Codec, chunks: seq<Chunk>)
    requires overlap < size
  {
    && (|chunks| == 0 <==> |tokens| == 0)
    && (forall k :: 0 <= k < |chunks| ==> StartOf(k, size, overlap) < |tokens| && chunks[k] == ChunkAt(tokens, StartOf(k, size, overlap), size, c))
    && (forall k :: 0 <= k < |chunks| - 1 ==> StartOf(k, size, overlap) + size < |tokens|)
    && (|chunks| > 0 ==> StartOf(|chunks| - 1, size, overlap) + size >= |tokens|)
  }

  /**
   * `chunk_text`: the loop emits the window at `start`, then moves `start`
   * to `chunk_overlap` tokens before the window's end, and stops once a
   * window has reached the last token. The overlap must be smaller than the
   * chunk size: otherwise `start` never advances.
   */
  method ChunkText(text: string, c: Codec, chunkSize: int := 500, chunkOverlap: int := 100) returns (chunks: seq<Chunk>)
    requires 0 <= chunkOverlap < chunkSize
    ensures Chunked(c.encode(text), chunkSize, chunkOverlap, c, chunks)
  {
    var tokens := c.encode(text);
    chunks := [];
    var start := 0;
    while start < |tokens|
      invariant start == StartOf(|chunks|, chunkSize, chunkOverlap)
      invariant |chunks| > 0 ==> start < |tokens|
      invariant forall k :: 0 <= k < |chunks| ==>
                  StartOf(k, chunkSize, chunkOverlap) < |tokens| && chunks[k] == ChunkAt(tokens, StartOf(k, chunkSize, chunkOverlap), chunkSize, c)
      invariant forall k :: 0 <= k < |chunks| ==> StartOf(k, chunkSize, chunkOverlap) + chunkSize < |tokens|
      decreases |tokens| - start
    {
      var end := Min(start + chunkSize, |tokens|);
      var chunkText := c.decode(tokens[start..end]);
      var startChar := |c.decode(tokens[..start])|;
      ghost var before := chunks;
      chunks := chunks + [Chunk(Take(c.digest(chunkText), 12), chunkText, startChar, startChar + |chunkText|, end - start)];
      assert chunks[|before|] == ChunkAt(tokens, start, chunkSize, c) && forall k :: 0 <= k < |before| ==> chunks[k] == before[k];
      if end - chunkOverlap >= |tokens| - chunkOverlap {
        assert StartOf(|chunks| - 1, chunkSize, chunkOverlap) == start;
        break;
      }
      start := end - chunkOverlap;
    }
  }

  /** Consecutive chunks overlap: each later chunk starts `chunk_overlap` tokens before the previous one ends. */
  lemma ChunksOverlap(tokens: seq<Token>, size: nat, overlap: nat, c: Codec, chunks: seq<Chunk>, k: nat)
    requires overlap < size && Chunked(tokens, size, overlap, c, chunks) && k + 1 < |chunks|
    ensures StartOf(k + 1, size, overlap) == StartOf(k, size, overlap) + chunks[k].tokenCount - overlap
    ensures chunks[k].tokenCount == size
  {
    assert StartOf(k, size, overlap) + size < |tokens|;
    assert StartOf(k + 1, size, overlap) == StartOf(k, size, overlap) + (size - overlap);
  }

  /** Chunk `k` holds token `i` when `i` lies in its window. */
  predicate Covers(tokens: seq<Token>, size: nat, overlap: nat, chunks: seq<Chunk>, k: nat, i: nat)
    requires overlap < size
  {
    k < |chunks| && StartOf(k, size, overlap) <= i < StartOf(k, size, overlap) + chunks[k].tokenCount
  }

  /** Every token lies in some chunk. */
  lemma ChunksCover(tokens: seq<Token>, size: nat, overlap: nat, c: Codec, chunks: seq<Chunk>, i: nat)
    requires overlap < size && Chunked(tokens, size, overlap, c, chunks) && i < |tokens|
    ensures exists k :: Covers(tokens, size, overlap, chunks, k, i)
  {
    CoveredBefore(tokens, size, overlap, c, chunks, |chunks| - 1, i);
  }

  /** The first `k + 1` chunks hold every token before the end of chunk `k`. */
  lemma {:induction false} CoveredBefore(tokens: seq<Token>, size: nat, overlap: nat, c: Codec, chunks: seq<Chunk>, k: nat, i: nat)
    requires overlap < size && Chunked(tokens, size, overlap, c, chunks) && k < |chunks|
    requires i < StartOf(k, size, overlap) + chunks[k].tokenCount
    ensures exists j: nat :: j <= k && Covers(tokens, size, overlap, chunks, j, i)
  {
    if i >= StartOf(k, size, overlap) {
      assert Covers(tokens, size, overlap, chunks, k, i);
    } else {
      ChunksOverlap(tokens, size, overlap, c, chunks, k - 1);
      CoveredBefore(tokens, size, overlap, c, chunks, k - 1, i);
    }
  }

  /** The texts `embed_texts` sends together: runs of 100, in order. */
  function Batches(texts: seq<string>): (r: seq<seq<string>>)
    decreases |texts|
  {
    if |texts| == 0 then []
    else
      var n := Min(100, |texts|);
      [texts[..n]] + Batches(texts[n..])
  }

  /** The sequences in `s`, one after the other. */
  function Concat<T>(s: seq<seq<T>>): seq<T> {
    if |s| == 0 then [] else s[0] + Concat(s[1..])
  }

  /** The batches put back together give the texts, and each holds between one and 100 of them. */
  lemma {:induction false} BatchesPartition(texts: seq<string>)
    ensures Concat(Batches(texts)) == texts
    ensures forall b :: b in Batches(texts) ==> 0 < |b| <= 100
    decreases |texts|
  {
    if |texts| > 0 {
      var n := Min(100, |texts|);
      BatchesPartition(texts[n..]);
      assert Batches(texts)[1..] == Batches(texts[n..]);
      assert texts == texts[..n] + texts[n..];
    }
  }

  /** The vectors the endpoint returns for each batch, one batch after another. */
  function Embedded(batches: seq<seq<string>>, embed: seq<string> -> seq<Vector>): seq<Vector> {
    if |batches| == 0 then [] else embed(batches[0]) + Embedded(batches[1..], embed)
  }

  /** With one vector per text from the endpoint, there is one vector per text overall. */
  lemma {:induction false} EmbeddedLength(batches: seq<seq<string>>, embed: seq<string> -> seq<Vector>)
    requires forall i :: 0 <= i < |batches| ==> |embed(batches[i])| == |batches[i]|
    ensures |Embedded(batches, embed)| == |Concat(batches)|
  {
    if |batches| > 0 {
      EmbeddedLength(batches[1..], embed);
    }
  }

  class EmbeddingService {
    const apiKey: string
    var hasClient: bool

    constructor (apiKey: string)
      ensures this.apiKey == apiKey && !hasClient
    {
      this.apiKey := apiKey;
      hasClient := false;
    }

    /** `_ensure_client`: the client is created once, and only with a key. */
    method EnsureClient() returns (r: Result<bool>)
      modifies this
      ensures r.Ok? <==> old(hasClient) || apiKey != ""
      ensures r.Err? ==> r.error == ValueError && !hasClient
      ensures r.Ok? ==> hasClient
    {
      if !hasClient {
        if apiKey == "" {
          return Err(ValueError);
        }
        hasClient := true;
      }
      r := Ok(true);
    }

    /**
     * `embed_texts`: an empty list gives no vectors and creates no client;
     * otherwise the texts go to the endpoint in batches of 100.
     */
    method EmbedTexts(texts: seq<string>, embed: seq<string> -> seq<Vector>) returns (r: Result<seq<Vector>>)
      modifies this
      ensures texts == [] ==> r == Ok([]) && hasClient == old(hasClient)
      ensures texts != [] ==> (r.Ok? <==> old(hasClient) || apiKey != "")
      ensures texts != [] && r.Ok? ==> r.value == Embedded(Batches(texts), embed)
    {
      if |texts| == 0 {
        return Ok([]);
      }
      var client := EnsureClient();
      if client.Err? {
        return Err(client.error);
      }
      var all: seq<Vector> := [];
      var i := 0;
      while i < |texts|
        invariant 0 <= i <= |texts|
        invariant all + Embedded(Batches(texts[i..]), embed) == Embedded(Batches(texts), embed)
        decreases |texts| - i
      {
        var n := Min(100, |texts| - i);
        var batch := texts[i..i + n];
        assert texts[i..][..n] == batch && texts[i..][n..] == texts[i + n..];
        all := all + embed(batch);
        i := i + n;
      }
      assert texts[i..] == [];
      r := Ok(all);
    }
  }
}
