/** `ingest` of the vectorize worker (apps/vectorize/src/ingest.ts): the
    flattened tweets are embedded and stored in batches of 100. The
    embedding model and the vector index are inputs: `embed` gives the
    embeddings of a list of texts, or `None` when the call throws; `upsert`
    says whether storing a list of vectors succeeded. */
module Ingest {

  import opened JsValues
  import opened JsStrings
  import opened Flatten

  const BatchSize := 100

  datatype Metadata = Metadata(text: string)

  /** `VectorizeVector`: its id, its embedding and the tweet text. */
  datatype Vector<E> = Vector(id: string, values: E, metadata: Metadata)

  /** The JSON answer of `ingest`, without `durationMs`. */
  datatype Report = Report(success: bool, processed: nat, failed: nat, total: nat)

  const IdPrefix := "tweet-"

  /** The id of the vector of the tweet at a global index: the prefix,
      then the index in decimal digits. */
  function VectorId(index: nat): (r: string)
    ensures |r| > |IdPrefix| && r[..|IdPrefix|] == IdPrefix
    ensures forall k :: |IdPrefix| <= k < |r| ==> '0' <= r[k] <= '9'
    ensures r[|IdPrefix|] == '0' ==> |r| == |IdPrefix| + 1
  {
    var r := IdPrefix + DecimalText(index);
    assert r[|IdPrefix|..] == DecimalText(index);
    r
  }

  /** The digits after the prefix read back as the index. */
  lemma VectorIdDecodes(index: nat)
    ensures DigitsValue(VectorId(index)[|IdPrefix|..]) == index
  {
    assert VectorId(index)[|IdPrefix|..] == DecimalText(index);
    DecimalTextValue(index);
  }

  /** Different tweets get different ids. */
  lemma VectorIdInjective(a: nat, b: nat)
    requires VectorId(a) == VectorId(b)
    ensures a == b
  {
    VectorIdDecodes(a);
    VectorIdDecodes(b);
  }

  /** `Math.min(start + BATCH_SIZE, n)`: where `slice` ends a batch. */
  function BatchEnd(start: nat, n: nat): (end: nat)
    ensures end <= n && end <= start + BatchSize
    ensures start < n ==> start < end
    ensures end == start + BatchSize || end == n
  {
    if start + BatchSize < n then start + BatchSize else n
  }

  /** `allTweets.slice(start, start + BATCH_SIZE)`. */
  function Batch(tweets: seq<Tweet>, start: nat): (batch: seq<Tweet>)
    requires start < |tweets|
    ensures 1 <= |batch| <= BatchSize
    ensures start + |batch| <= |tweets|
    ensures forall p :: 0 <= p < |batch| ==> batch[p] == tweets[start + p]
  {
    tweets[start..BatchEnd(start, |tweets|)]
  }

  /** `batch.map((t) => t.fullText)`. */
  function Texts(batch: seq<Tweet>): (texts: seq<string>)
    ensures |texts| == |batch|
    ensures forall p :: 0 <= p < |batch| ==> texts[p] == batch[p].fullText
  {
    seq(|batch|, p requires 0 <= p < |batch| => batch[p].fullText)
  }

  /** The `embeddings.data.map` building the vectors of the batch starting
      at `start`: one per embedding, with the global index in its id and
      the text of the tweet at the same position. More embeddings than
      tweets make `batch[idx]` undefined and the map throw. */
  function BatchVectors<E>(batch: seq<Tweet>, start: nat, embeddings: seq<E>): (r: Option<seq<Vector<E>>>)
    ensures r.None? <==> |embeddings| > |batch|
    ensures r.Some? ==> |r.value| == |embeddings|
    ensures r.Some? ==> forall p :: 0 <= p < |r.value| ==>
      r.value[p] == Vector(VectorId(start + p), embeddings[p], Metadata(batch[p].fullText))
  {
    if |embeddings| > |batch| then None
    else Some(seq(|embeddings|, p requires 0 <= p < |embeddings| =>
      Vector(VectorId(start + p), embeddings[p], Metadata(batch[p].fullText))))
  }

  /** The embeddings the vectors carry, in order. */
  function Embeddings<E>(vectors: seq<Vector<E>>): (r: seq<E>)
    ensures |r| == |vectors|
  {
    seq(|vectors|, p requires 0 <= p < |vectors| => vectors[p].values)
  }

  /** The body of the `try` for the batch starting at `start`: the vectors
      it stored, or `None` when embedding, building or storing threw. */
  function StoreBatch<E>(tweets: seq<Tweet>, start: nat, embed: seq<string> -> Option<seq<E>>,
                         upsert: seq<Vector<E>> -> bool): (r: Option<seq<Vector<E>>>)
    requires start < |tweets|
    ensures embed(Texts(Batch(tweets, start))).None? ==> r.None?
    ensures var batch := Batch(tweets, start); var e := embed(Texts(batch));
      e.Some? && |e.value| <= |batch| && upsert(BatchVectors(batch, start, e.value).value)
      ==> r == BatchVectors(batch, start, e.value)
    ensures r.Some? ==> upsert(r.value)
    ensures r.Some? ==> var embedded := embed(Texts(Batch(tweets, start)));
      embedded.Some? && |r.value| <= |Batch(tweets, start)| && Embeddings(r.value) == embedded.value
    ensures r.Some? ==> forall p :: 0 <= p < |r.value| ==>
      && r.value[p].id == VectorId(start + p)
      && r.value[p].metadata.text == tweets[start + p].fullText
  {
    var batch := Batch(tweets, start);
    match embed(Texts(batch))
    case None => None
    case Some(embeddings) =>
      match BatchVectors(batch, start, embeddings)
      case None => None
      case Some(vectors) => if upsert(vectors) then Some(vectors) else None
  }

  /** Counters and stored vectors. */
  datatype Tally<E> = Tally(processed: nat, failed: nat, stored: seq<Vector<E>>)

  /** What the batches starting at `start`, `start + 100`, ... contribute:
      each adds its length to `processed` and its vectors to what is stored
      when it succeeds, and its length to `failed` otherwise. */
  function TallyFrom<E>(tweets: seq<Tweet>, start: nat, embed: seq<string> -> Option<seq<E>>,
                        upsert: seq<Vector<E>> -> bool): (r: Tally<E>)
    ensures |r.stored| <= r.processed
    decreases |tweets| - start
  {
    if start >= |tweets| then Tally(0, 0, [])
    else
      var rest := TallyFrom(tweets, start + BatchSize, embed, upsert);
      var size := |Batch(tweets, start)|;
      match StoreBatch(tweets, start, embed, upsert)
      case None => Tally(rest.processed, rest.failed + size, rest.stored)
      case Some(vectors) => Tally(rest.processed + size, rest.failed, vectors + rest.stored)
  }

  /** Every tweet from `start` on is counted once, as processed or as
      failed. */
  lemma {:induction false} TallyCountsEveryTweet<E>(tweets: seq<Tweet>, start: nat,
                                                     embed: seq<string> -> Option<seq<E>>,
                                                     upsert: seq<Vector<E>> -> bool)
    requires start <= |tweets|
    ensures var t := TallyFrom(tweets, start, embed, upsert);
      t.processed + t.failed == |tweets| - start
    decreases |tweets| - start
  {
    if start < |tweets| {
      if start + BatchSize <= |tweets| {
        TallyCountsEveryTweet(tweets, start + BatchSize, embed, upsert);
      }
    }
  }

  /** The global tweet indices of the stored vectors, in order. */
  function StoredIndices<E>(tweets: seq<Tweet>, start: nat, embed: seq<string> -> Option<seq<E>>,
                            upsert: seq<Vector<E>> -> bool): seq<nat>
    decreases |tweets| - start
  {
    if start >= |tweets| then []
    else
      var rest := StoredIndices(tweets, start + BatchSize, embed, upsert);
      match StoreBatch(tweets, start, embed, upsert)
      case None => rest
      case Some(vectors) => seq(|vectors|, p requires 0 <= p < |vectors| => start + p) + rest
  }

  /** The stored vectors from `start` on belong to distinct tweets at
      increasing indices from `start` on. */
  lemma {:induction false} StoredIndicesIncreasing<E>(tweets: seq<Tweet>, start: nat,
                                                      embed: seq<string> -> Option<seq<E>>,
                                                      upsert: seq<Vector<E>> -> bool)
    ensures var vs, ix := TallyFrom(tweets, start, embed, upsert).stored, StoredIndices(tweets, start, embed, upsert);
      && |ix| == |vs|
      && (forall p :: 0 <= p < |ix| ==> start <= ix[p] < |tweets|)
      && (forall p, q :: 0 <= p < q < |ix| ==> ix[p] < ix[q])
    decreases |tweets| - start
  {
    if start < |tweets| {
      var next := start + BatchSize;
      StoredIndicesIncreasing(tweets, next, embed, upsert);
      var restIx := StoredIndices(tweets, next, embed, upsert);
      var stored := StoreBatch(tweets, start, embed, upsert);
      if stored.Some? {
        var n := |stored.value|;
        var ix := seq(n, p requires 0 <= p < n => start + p) + restIx;
        assert StoredIndices(tweets, start, embed, upsert) == ix;
        assert n <= BatchSize;
        forall p, q | 0 <= p < q < |ix| ensures ix[p] < ix[q] {
          if q >= n {
            assert ix[q] == restIx[q - n];
            if p >= n {
              assert ix[p] == restIx[p - n];
            }
          }
        }
      }
    }
  }

  /** `vs[p]` is the vector of the tweet at index `ix[p]`: it has that
      index's id and carries that tweet's text. */
  predicate IndexedBy<E>(tweets: seq<Tweet>, vs: seq<Vector<E>>, ix: seq<nat>) {
    |ix| == |vs|
    && forall p :: 0 <= p < |ix| ==>
         ix[p] < |tweets| && vs[p].id == VectorId(ix[p]) && vs[p].metadata.text == tweets[ix[p]].fullText
  }

  /** The vectors of one batch, followed by vectors already indexed, are
      indexed by the batch's positions followed by those indices. */
  lemma IndexedByConcat<E>(tweets: seq<Tweet>, start: nat, vectors: seq<Vector<E>>,
                           rest: seq<Vector<E>>, restIx: seq<nat>)
    requires start + |vectors| <= |tweets|
    requires forall p :: 0 <= p < |vectors| ==>
      vectors[p].id == VectorId(start + p) && vectors[p].metadata.text == tweets[start + p].fullText
    requires IndexedBy(tweets, rest, restIx)
    ensures IndexedBy(tweets, vectors + rest, seq(|vectors|, p requires 0 <= p < |vectors| => start + p) + restIx)
  {
    var n := |vectors|;
    var vs, ix := vectors + rest, seq(n, p requires 0 <= p < n => start + p) + restIx;
    forall p | 0 <= p < |ix|
      ensures ix[p] < |tweets| && vs[p].id == VectorId(ix[p]) && vs[p].metadata.text == tweets[ix[p]].fullText
    {
      if p >= n {
        assert vs[p] == rest[p - n] && ix[p] == restIx[p - n];
      }
    }
  }

  /** Each stored vector has the id of its tweet's index and carries that
      tweet's text. */
  lemma {:induction false} StoredVectorsIndexed<E>(tweets: seq<Tweet>, start: nat,
                                                   embed: seq<string> -> Option<seq<E>>,
                                                   upsert: seq<Vector<E>> -> bool)
    ensures IndexedBy(tweets, TallyFrom(tweets, start, embed, upsert).stored, StoredIndices(tweets, start, embed, upsert))
    decreases |tweets| - start
  {
    if start >= |tweets| {
      assert StoredIndices(tweets, start, embed, upsert) == [];
    } else {
      var next := start + BatchSize;
      StoredVectorsIndexed(tweets, next, embed, upsert);
      var rest, restIx := TallyFrom(tweets, next, embed, upsert).stored, StoredIndices(tweets, next, embed, upsert);
      var stored := StoreBatch(tweets, start, embed, upsert);
      if stored.Some? {
        var vectors := stored.value;
        IndexedByConcat(tweets, start, vectors, rest, restIx);
        assert TallyFrom(tweets, start, embed, upsert).stored == vectors + rest;
        assert StoredIndices(tweets, start, embed, upsert)
            == seq(|vectors|, p requires 0 <= p < |vectors| => start + p) + restIx;
      }
    }
  }

  /** No two stored vectors share an id. */
  lemma StoredIdsDistinct<E>(tweets: seq<Tweet>, embed: seq<string> -> Option<seq<E>>,
                             upsert: seq<Vector<E>> -> bool, p: nat, q: nat)
    requires p < q < |TallyFrom(tweets, 0, embed, upsert).stored|
    ensures TallyFrom(tweets, 0, embed, upsert).stored[p].id != TallyFrom(tweets, 0, embed, upsert).stored[q].id
  {
    StoredIndicesIncreasing(tweets, 0, embed, upsert);
    StoredVectorsIndexed(tweets, 0, embed, upsert);
    var ix := StoredIndices(tweets, 0, embed, upsert);
    if TallyFrom(tweets, 0, embed, upsert).stored[p].id == TallyFrom(tweets, 0, embed, upsert).stored[q].id {
      VectorIdInjective(ix[p], ix[q]);
    }
  }

  /** Batches start at the multiples of 100: the tweet at index `j` is in
      the batch starting at `100 * (j / 100)`, at position `j % 100`, and
      in no other batch. */
  lemma EveryTweetInOneBatch(tweets: seq<Tweet>, j: nat)
    requires j < |tweets|
    ensures var start := BatchSize * (j / BatchSize);
      && start <= j < BatchEnd(start, |tweets|)
      && Batch(tweets, start)[j % BatchSize] == tweets[j]
    ensures forall s: nat :: s % BatchSize == 0 && s <= j < BatchEnd(s, |tweets|) ==> s == BatchSize * (j / BatchSize)
  {
  }

  /** `ingest`: the batching loop, with its two counters; each batch runs
      the `try` body and lands in one counter. `stored` lists the vectors of
      the batches whose upsert succeeded, in order. */
  method Ingest<E>(tweets: seq<Tweet>, embed: seq<string> -> Option<seq<E>>, upsert: seq<Vector<E>> -> bool)
    returns (report: Report, stored: seq<Vector<E>>)
    ensures report.success && report.total == |tweets|
    ensures report.processed + report.failed == report.total
    ensures report.processed == TallyFrom(tweets, 0, embed, upsert).processed
    ensures report.failed == TallyFrom(tweets, 0, embed, upsert).failed
    ensures stored == TallyFrom(tweets, 0, embed, upsert).stored
  {
    ghost var total := TallyFrom(tweets, 0, embed, upsert);
    var processed, failed := 0, 0;
    stored := [];
    var i := 0;
    while i < |tweets|
      invariant processed + TallyFrom(tweets, i, embed, upsert).processed == total.processed
      invariant failed + TallyFrom(tweets, i, embed, upsert).failed == total.failed
      invariant stored + TallyFrom(tweets, i, embed, upsert).stored == total.stored
      decreases |tweets| - i
    {
      var batch := Batch(tweets, i);
      ghost var rest := TallyFrom(tweets, i + BatchSize, embed, upsert);
      match StoreBatch(tweets, i, embed, upsert) {
        case Some(vectors) =>
          processed := processed + |batch|;
          stored := stored + vectors;
          assert stored + rest.stored == total.stored;
        case None =>
          failed := failed + |batch|;
      }
      i := i + BatchSize;
    }
    TallyCountsEveryTweet(tweets, 0, embed, upsert);
    report := Report(true, processed, failed, |tweets|);
  }
}
