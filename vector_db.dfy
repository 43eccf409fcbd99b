/**
 * The vector store wrapper of api/vector_db.py: one collection holding two
 * named vector spaces ("image", 768 dimensions, and "text", 384 dimensions,
 * both cosine), created lazily, filled by batched insert-or-replace and
 * queried one space at a time.
 *
 * The store is the class VectorStore. Its state is the collection's
 * configuration (absent until the collection is created) and the points
 * stored under their identifiers. The nearest-neighbour ranking done by the
 * engine is an opaque function given to the store when it is opened.
 */
module VectorDb {
  import opened Wrappers
  import opened Payloads

  type Vector = seq<real>
  type PointId = nat

  const ImageSpace: string := "image"
  const TextSpace: string := "text"
  const ImageDim: nat := 768
  const TextDim: nat := 384

  datatype Distance = Cosine | Dot | Euclid | Manhattan
  datatype VectorParams = VectorParams(size: nat, distance: Distance)

  /** Named vector spaces of the collection. */
  type CollectionConfig = map<string, VectorParams>

  /** The configuration `ensure_collection` creates. */
  function DefaultConfig(): CollectionConfig {
    map[ImageSpace := VectorParams(ImageDim, Cosine), TextSpace := VectorParams(TextDim, Cosine)]
  }

  /** The collection after `ensure_collection`: an existing one is kept as it is. */
  function Ensured(collection: Option<CollectionConfig>): Option<CollectionConfig> {
    if collection.Some? then collection else Some(DefaultConfig())
  }

  /** A stored point: its identifier, one vector per named space it has, and its payload. */
  datatype Point = Point(id: PointId, vector: map<string, Vector>, payload: Payload)

  /** One search hit as the engine returns it. */
  datatype ScoredPoint = ScoredPoint(id: PointId, score: real, payload: Option<Payload>)

  /**
   * The engine's nearest-neighbour ranking: given a space, a query vector and
   * the points that have a vector in that space, the hits in rank order.
   */
  type Ranking = (string, Vector, map<PointId, Point>) -> seq<ScoredPoint>

  function Min(a: int, b: int): int {
    if a <= b then a else b
  }

  /** `v` is a vector of the declared space `space` of `cfg`. */
  predicate Fits(cfg: CollectionConfig, space: string, v: Vector) {
    space in cfg && |v| == cfg[space].size
  }

  /** Every vector of `p` lies in a declared space and has that space's dimension. */
  predicate Conforms(cfg: CollectionConfig, p: Point) {
    forall space :: space in p.vector ==> Fits(cfg, space, p.vector[space])
  }

  /**
   * The store's invariant: no points before the collection exists, every
   * point stored under its own identifier, every stored vector of its
   * space's dimension.
   */
  predicate Consistent(collection: Option<CollectionConfig>, points: map<PointId, Point>) {
    && (collection.None? ==> points == map[])
    && forall id :: id in points ==>
         points[id].id == id && collection.Some? && Conforms(collection.value, points[id])
  }

  /** Stored identifiers are exactly 0, 1, ..., count - 1. */
  predicate Dense(points: map<PointId, Point>) {
    && (forall id :: id in points ==> id < |points|)
    && (forall id: PointId :: id < |points| ==> id in points)
  }

  // ---------------------------------------------------------------------
  // Identifier allocation and point construction
  // ---------------------------------------------------------------------

  /** `list(range(count, count + n))`: the identifiers given to a batch without ids. */
  function AutoIds(count: nat, n: nat): seq<PointId> {
    seq(n, i requires 0 <= i < n => count + i)
  }

  /** The identifiers a batch uses: the caller's, or fresh ones counted from `count`. */
  function AssignedIds(ids: Option<seq<PointId>>, count: nat, n: nat): seq<PointId> {
    if ids.None? then AutoIds(count, n) else ids.value
  }

  /** The payloads a batch uses: the caller's, or an empty payload per image embedding. */
  function PayloadsOrEmpty(payloads: Option<seq<Payload>>, n: nat): seq<Payload> {
    if payloads.None? then seq(n, _ => map[]) else payloads.value
  }

  /** The number of points `zip(ids, image_embeddings, payloads)` yields. */
  function Written(n: nat, ids: Option<seq<PointId>>, payloads: Option<seq<Payload>>): nat {
    Min(if ids.None? then n else |ids.value|, Min(n, if payloads.None? then n else |payloads.value|))
  }

  /** Point `i` of the batch carries a text vector. */
  predicate TextAttached(texts: Option<seq<Vector>>, i: nat) {
    texts.Some? && |texts.value| > 0 && i < |texts.value|
  }

  function VectorsAt(images: seq<Vector>, texts: Option<seq<Vector>>, i: nat): map<string, Vector>
    requires i < |images|
  {
    if TextAttached(texts, i) then map[ImageSpace := images[i], TextSpace := texts.value[i]]
    else map[ImageSpace := images[i]]
  }

  /**
   * The points one upsert call writes: the i-th id, image embedding and
   * payload are zipped together, and a text vector is attached exactly when
   * one exists at that index.
   */
  function PointsFor(ids: seq<PointId>, images: seq<Vector>, payloads: seq<Payload>,
                     texts: Option<seq<Vector>>): (pts: seq<Point>)
    ensures |pts| == Min(|ids|, Min(|images|, |payloads|))
    ensures forall i :: 0 <= i < |pts| ==>
              && pts[i].id == ids[i]
              && pts[i].payload == payloads[i]
              && ImageSpace in pts[i].vector && pts[i].vector[ImageSpace] == images[i]
              && (TextSpace in pts[i].vector <==> TextAttached(texts, i))
              && (TextAttached(texts, i) ==> pts[i].vector[TextSpace] == texts.value[i])
              && pts[i].vector.Keys <= {ImageSpace, TextSpace}
  {
    var n := Min(|ids|, Min(|images|, |payloads|));
    seq(n, i requires 0 <= i < n => Point(ids[i], VectorsAt(images, texts, i), payloads[i]))
  }

  /** The loop of `upsert_product_embeddings` that builds the point list. */
  method BuildPoints(ids: seq<PointId>, images: seq<Vector>, payloads: seq<Payload>,
                     texts: Option<seq<Vector>>) returns (pts: seq<Point>)
    ensures pts == PointsFor(ids, images, payloads, texts)
  {
    var n := Min(|ids|, Min(|images|, |payloads|));
    pts := [];
    var i := 0;
    while i < n
      invariant 0 <= i <= n
      invariant pts == PointsFor(ids, images, payloads, texts)[..i]
    {
      var vectorData := map[ImageSpace := images[i]];
      if texts.Some? && |texts.value| > 0 && i < |texts.value| {
        vectorData := vectorData[TextSpace := texts.value[i]];
      }
      pts := pts + [Point(ids[i], vectorData, payloads[i])];
      i := i + 1;
    }
  }

  /** The vectors of the first `n` points of a batch fit the configuration `cfg`. */
  predicate BatchFits(cfg: CollectionConfig, images: seq<Vector>, texts: Option<seq<Vector>>, n: nat) {
    forall k :: 0 <= k < n && k < |images| ==>
      Fits(cfg, ImageSpace, images[k]) && (TextAttached(texts, k) ==> Fits(cfg, TextSpace, texts.value[k]))
  }

  // ---------------------------------------------------------------------
  // Insert-or-replace
  // ---------------------------------------------------------------------

  /** The engine's upsert of a point list: each point in turn replaces whatever its id held. */
  function Upserted(points: map<PointId, Point>, batch: seq<Point>): map<PointId, Point>
    decreases |batch|
  {
    if batch == [] then points else Upserted(points[batch[0].id := batch[0]], batch[1..])
  }

  function BatchIds(batch: seq<Point>): set<PointId> {
    set i | 0 <= i < |batch| :: batch[i].id
  }

  /** Upsert adds exactly the batch's ids and leaves every other stored point as it was. */
  lemma {:induction false} UpsertedFrame(points: map<PointId, Point>, batch: seq<Point>)
    ensures Upserted(points, batch).Keys == points.Keys + BatchIds(batch)
    ensures forall id :: id in points && id !in BatchIds(batch) ==> Upserted(points, batch)[id] == points[id]
    decreases |batch|
  {
    if batch != [] {
      var rest := batch[1..];
      UpsertedFrame(points[batch[0].id := batch[0]], rest);
      forall x | x in BatchIds(batch) ensures x == batch[0].id || x in BatchIds(rest) {
        var i :| 0 <= i < |batch| && batch[i].id == x;
        if i > 0 { assert rest[i - 1] == batch[i]; }
      }
      forall x | x in BatchIds(rest) ensures x in BatchIds(batch) {
        var i :| 0 <= i < |rest| && rest[i].id == x;
        assert batch[i + 1] == rest[i];
      }
      assert batch[0].id in BatchIds(batch);
    }
  }

  /** A point whose id does not occur later in the batch is what the store holds for that id. */
  lemma {:induction false} UpsertedStores(points: map<PointId, Point>, batch: seq<Point>, i: nat)
    requires i < |batch|
    requires forall j :: i < j < |batch| ==> batch[j].id != batch[i].id
    ensures batch[i].id in Upserted(points, batch)
    ensures Upserted(points, batch)[batch[i].id] == batch[i]
    decreases |batch|
  {
    var next := points[batch[0].id := batch[0]];
    if i == 0 {
      UpsertedFrame(next, batch[1..]);
    } else {
      UpsertedStores(next, batch[1..], i - 1);
    }
  }

  /** Upserting points that fit the configuration keeps the store consistent. */
  lemma {:induction false} UpsertedConsistent(cfg: CollectionConfig, points: map<PointId, Point>, batch: seq<Point>)
    requires Consistent(Some(cfg), points)
    requires forall i :: 0 <= i < |batch| ==> Conforms(cfg, batch[i])
    ensures Consistent(Some(cfg), Upserted(points, batch))
    decreases |batch|
  {
    if batch != [] {
      UpsertedConsistent(cfg, points[batch[0].id := batch[0]], batch[1..]);
    }
  }

  /** Storing a point under the next id keeps the ids dense. */
  lemma DenseExtend(points: map<PointId, Point>, p: Point)
    requires Dense(points) && p.id == |points|
    ensures |points[p.id := p]| == |points| + 1
    ensures Dense(points[p.id := p])
  {
    assert p.id !in points;
    var next := points[p.id := p];
    assert |next| == |points| + 1;
    forall id: PointId | id < |next| ensures id in next {
      if id != p.id {
        assert id < |points|;
        assert id in points;
      }
    }
  }

  /**
   * When stored ids are exactly 0 .. count - 1, a batch numbered from the
   * count overwrites nothing: every stored point stays, every batch point
   * is added, and the ids stay dense.
   */
  lemma {:induction false} AutoUpsertDense(points: map<PointId, Point>, batch: seq<Point>)
    requires Dense(points)
    requires forall i :: 0 <= i < |batch| ==> batch[i].id == |points| + i
    ensures Dense(Upserted(points, batch))
    ensures |Upserted(points, batch)| == |points| + |batch|
    ensures forall id :: id in points ==> id in Upserted(points, batch) && Upserted(points, batch)[id] == points[id]
    ensures forall i :: 0 <= i < |batch| ==>
              batch[i].id in Upserted(points, batch) && Upserted(points, batch)[batch[i].id] == batch[i]
    decreases |batch|
  {
    if batch != [] {
      var next := points[batch[0].id := batch[0]];
      assert |next| == |points| + 1 && Dense(next) by {
        DenseExtend(points, batch[0]);
      }
      assert batch[0].id !in points;
      forall i | 0 <= i < |batch[1..]| ensures batch[1..][i].id == |next| + i {
        assert batch[1..][i] == batch[i + 1];
      }
      AutoUpsertDense(next, batch[1..]);
      forall i | 1 <= i < |batch|
        ensures batch[i].id in Upserted(points, batch) && Upserted(points, batch)[batch[i].id] == batch[i]
      {
        assert batch[1..][i - 1] == batch[i];
      }
    }
  }

  /**
   * An upsert without ids and without payloads into a store whose ids are
   * exactly 0 .. count - 1: image embedding i is stored under id count + i
   * with an empty payload and its text vector when one is given, no stored
   * point is replaced, and the ids stay dense.
   */
  lemma AutoUpsertStores(points: map<PointId, Point>, images: seq<Vector>, texts: Option<seq<Vector>>, i: nat)
    requires Dense(points)
    requires i < |images|
    ensures var after := Upserted(points, PointsFor(AutoIds(|points|, |images|), images,
                                                    PayloadsOrEmpty(None, |images|), texts));
            && Dense(after)
            && |after| == |points| + |images|
            && (forall id :: id in points ==> id in after && after[id] == points[id])
            && |points| + i in after
            && after[|points| + i].payload == map[]
            && ImageSpace in after[|points| + i].vector
            && after[|points| + i].vector[ImageSpace] == images[i]
            && (TextSpace in after[|points| + i].vector <==> TextAttached(texts, i))
  {
    var ids := AutoIds(|points|, |images|);
    var pts := PointsFor(ids, images, PayloadsOrEmpty(None, |images|), texts);
    assert |pts| == |images|;
    assert forall k :: 0 <= k < |pts| ==> pts[k].id == |points| + k by {
      forall k | 0 <= k < |pts| ensures pts[k].id == |points| + k {
        assert pts[k].id == ids[k];
      }
    }
    AutoUpsertDense(points, pts);
    assert pts[i].id == |points| + i;
  }

  /**
   * Count-based allocation is guaranteed collision-free when the stored ids
   * are exactly 0 .. count - 1; otherwise a new id can replace a stored
   * point: with ids 0 and 2 stored, the next allocated id is 2, and the
   * upsert replaces the point already stored there.
   */
  lemma AutoIdsCanOverwrite(a: Point, b: Point, c: Point)
    requires a.id == 0 && b.id == 2 && c.id == 2 && b != c
    ensures var points := map[0 := a, 2 := b];
            && AutoIds(|points|, 1) == [2]
            && 2 in points
            && 2 in Upserted(points, [c])
            && Upserted(points, [c])[2] != points[2]
  {
    var points := map[0 := a, 2 := b];
    assert points.Keys == {0, 2};
    assert |points.Keys| == 2;
  }

  // ---------------------------------------------------------------------
  // Search
  // ---------------------------------------------------------------------

  /** The points that have a vector in `space`: the only ones a search there considers. */
  function Candidates(points: map<PointId, Point>, space: string): map<PointId, Point> {
    map id | id in points && space in points[id].vector :: points[id]
  }

  /**
   * A search in `space` with `limit`: the engine's ranking of the points that
   * have a vector there, cut to at most `limit` hits.
   */
  function SearchResult(ranking: Ranking, points: map<PointId, Point>, space: string,
                        query: Vector, limit: nat): (hits: seq<ScoredPoint>)
    ensures |hits| <= limit
    ensures hits <= ranking(space, query, Candidates(points, space))
    ensures |hits| == Min(limit, |ranking(space, query, Candidates(points, space))|)
  {
    var ranked := ranking(space, query, Candidates(points, space));
    if |ranked| <= limit then ranked else ranked[..limit]
  }

  // ---------------------------------------------------------------------
  // The store
  // ---------------------------------------------------------------------

  class VectorStore {
    /** The engine's nearest-neighbour ranking. */
    const ranking: Ranking
    /** The collection's configuration; None until the collection exists. */
    var collection: Option<CollectionConfig>
    /** The stored points, by identifier. */
    var points: map<PointId, Point>

    ghost predicate Valid()
      reads this
    {
      Consistent(collection, points)
    }

    /** The configuration in force once `ensure_collection` has run. */
    function Effective(): CollectionConfig
      reads this
    {
      Ensured(collection).value
    }

    /** Opens a store over existing state (an empty one: no collection, no points). */
    constructor (ranking: Ranking, collection: Option<CollectionConfig>, points: map<PointId, Point>)
      requires Consistent(collection, points)
      ensures Valid()
      ensures this.ranking == ranking && this.collection == collection && this.points == points
    {
      this.ranking := ranking;
      this.collection := collection;
      this.points := points;
    }

    /**
     * `ensure_collection`: an existing collection is left alone, whatever its
     * configuration; otherwise the collection is created with "image" (768,
     * cosine) and "text" (384, cosine).
     */
    method EnsureCollection()
      requires Valid()
      modifies this
      ensures Valid()
      ensures points == old(points)
      ensures old(collection).Some? ==> collection == old(collection)
      ensures old(collection).None? ==> collection == Some(DefaultConfig())
      ensures Effective() == old(Effective())
    {
      if collection.Some? {
        return;
      }
      collection := Some(DefaultConfig());
    }

    /**
     * `upsert_product_embeddings`. An empty batch changes nothing, not even
     * the collection. Otherwise the collection is ensured, ids are the
     * caller's or are counted from the number of stored points, payloads
     * default to empty, the zipped points are built and each replaces what
     * its id held.
     */
    method UpsertProductEmbeddings(images: seq<Vector>, payloads: Option<seq<Payload>>,
                                   texts: Option<seq<Vector>>, ids: Option<seq<PointId>>)
      requires Valid()
      requires BatchFits(Effective(), images, texts, Written(|images|, ids, payloads))
      modifies this
      ensures Valid()
      ensures Effective() == old(Effective())
      ensures images == [] ==> collection == old(collection) && points == old(points)
      ensures images != [] ==> collection == Ensured(old(collection))
      ensures images != [] ==>
                points == Upserted(old(points),
                                   PointsFor(AssignedIds(ids, |old(points)|, |images|), images,
                                             PayloadsOrEmpty(payloads, |images|), texts))
    {
      if images == [] {
        return;
      }
      EnsureCollection();
      var pointIds := AssignedIds(ids, |points|, |images|);
      var pays := PayloadsOrEmpty(payloads, |images|);
      var pts := BuildPoints(pointIds, images, pays, texts);
      forall i | 0 <= i < |pts| ensures Conforms(collection.value, pts[i]) {
        assert i < Written(|images|, ids, payloads);
      }
      UpsertedConsistent(collection.value, points, pts);
      points := Upserted(points, pts);
    }

    /** `upsert_embeddings`: the same upsert with no text embeddings. */
    method UpsertEmbeddings(embeddings: seq<Vector>, payloads: Option<seq<Payload>>, ids: Option<seq<PointId>>)
      requires Valid()
      requires BatchFits(Effective(), embeddings, None, Written(|embeddings|, ids, payloads))
      modifies this
      ensures Valid()
      ensures Effective() == old(Effective())
      ensures embeddings == [] ==> collection == old(collection) && points == old(points)
      ensures embeddings != [] ==> collection == Ensured(old(collection))
      ensures embeddings != [] ==>
                points == Upserted(old(points),
                                   PointsFor(AssignedIds(ids, |old(points)|, |embeddings|), embeddings,
                                             PayloadsOrEmpty(payloads, |embeddings|), None))
    {
      UpsertProductEmbeddings(embeddings, payloads, None, ids);
    }

    /** A search in one named space after ensuring the collection. */
    method Query(space: string, query: Vector, topK: nat) returns (hits: seq<ScoredPoint>)
      requires Valid()
      requires Fits(Effective(), space, query)
      modifies this
      ensures Valid()
      ensures collection == Ensured(old(collection)) && points == old(points)
      ensures hits == SearchResult(ranking, points, space, query, topK)
    {
      EnsureCollection();
      hits := SearchResult(ranking, points, space, query, topK);
    }

    /** `search_embeddings`: a search in the "image" space with limit `topK`. */
    method SearchEmbeddings(query: Vector, topK: nat) returns (hits: seq<ScoredPoint>)
      requires Valid()
      requires Fits(Effective(), ImageSpace, query)
      modifies this
      ensures Valid()
      ensures collection == Ensured(old(collection)) && points == old(points)
      ensures hits == SearchResult(ranking, points, ImageSpace, query, topK)
    {
      hits := Query(ImageSpace, query, topK);
    }

    /** `search_image_embeddings`: the same search as `search_embeddings`. */
    method SearchImageEmbeddings(query: Vector, topK: nat) returns (hits: seq<ScoredPoint>)
      requires Valid()
      requires Fits(Effective(), ImageSpace, query)
      modifies this
      ensures Valid()
      ensures collection == Ensured(old(collection)) && points == old(points)
      ensures hits == SearchResult(ranking, points, ImageSpace, query, topK)
    {
      hits := SearchEmbeddings(query, topK);
    }

    /** `search_text_embeddings`: a search in the "text" space with limit `topK`. */
    method SearchTextEmbeddings(query: Vector, topK: nat) returns (hits: seq<ScoredPoint>)
      requires Valid()
      requires Fits(Effective(), TextSpace, query)
      modifies this
      ensures Valid()
      ensures collection == Ensured(old(collection)) && points == old(points)
      ensures hits == SearchResult(ranking, points, TextSpace, query, topK)
    {
      hits := Query(TextSpace, query, topK);
    }
  }

  /** Ensuring twice is ensuring once. */
  lemma EnsureIdempotent(collection: Option<CollectionConfig>)
    ensures Ensured(Ensured(collection)) == Ensured(collection)
  {
  }
}
