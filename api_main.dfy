/**
 * The request handling of api/main.py around the vector store: the two
 * search endpoints (`/match` by image, `/search_by_text` by text), the loop
 * that turns raw search hits into product matches, the response records and
 * the health-status rule.
 *
 * Image decoding, model inference and the product catalogue are outside the
 * model: an endpoint receives the outcome of inference as an `Inference`
 * value, and the catalogue lookup `get_product` is an oracle that returns a
 * product, returns nothing, or raises.
 */
module Api {
  import opened Wrappers
  import opened Payloads
  import opened VectorDb

  /** `TOP_K_RESULTS`: the number of hits every search asks for. */
  const TopKResults: nat := 5

  /** A product document from the catalogue; only `_id` is always present. */
  datatype Product = Product(id: string, name: Option<string>, category: Option<string>, imageUrl: Option<string>)

  /** What `get_product` does with one key. */
  datatype Lookup = Found(product: Product) | NotFound | Raised(error: string)

  type Catalogue = string -> Lookup

  datatype ProductMatch = ProductMatch(id: string, name: string, category: string, imageUrl: string,
                                       similarityScore: real)

  datatype MatchingResponse = MatchingResponse(success: bool, matches: seq<ProductMatch>, totalMatches: nat,
                                               message: Option<string>)

  /** An endpoint either raises an HTTP error or returns a response body. */
  datatype Reply = HttpError(statusCode: nat, detail: string) | Body(response: MatchingResponse)

  /** The outcome of turning the request into a query vector. */
  datatype Inference = InferenceFailed(error: string) | Embedded(vector: Vector)

  /** Stand-in for the engine's message when it refuses a query vector. */
  const QueryRejected: string := "query vector does not fit the vector space"

  // ---------------------------------------------------------------------
  // From hits to matches
  // ---------------------------------------------------------------------

  /**
   * The key a hit is looked up by: none when the payload is missing or empty,
   * or when its "product_id" is missing or falsy; otherwise `str` of it.
   */
  function ProductKey(hit: ScoredPoint): (key: Option<string>)
    ensures key.Some? <==>
              && hit.payload.Some? && hit.payload.value != map[]
              && "product_id" in hit.payload.value && Truthy(hit.payload.value["product_id"])
    ensures key.Some? ==> key.value == Show(hit.payload.value["product_id"])
  {
    if hit.payload.None? || hit.payload.value == map[] then None
    else
      var productId := if "product_id" in hit.payload.value then hit.payload.value["product_id"] else Null;
      if !Truthy(productId) then None else Some(Show(productId))
  }

  /** What the loop does with one hit: skip it, keep a match, or abort with the lookup's exception. */
  datatype Fate = Skipped | Matched(m: ProductMatch) | Aborted(error: string)

  function HitFate(hit: ScoredPoint, catalogue: Catalogue): Fate {
    match ProductKey(hit)
    case None => Skipped
    case Some(key) =>
      match catalogue(key)
      case Found(p) =>
        Matched(ProductMatch(p.id, p.name.GetOr("Unknown"), p.category.GetOr("Unknown"), p.imageUrl.GetOr(""),
                             hit.score))
      case NotFound => Skipped
      case Raised(e) => Aborted(e)
  }

  /**
   * `m` is the match reported for `hit`: the catalogue finds a product under
   * the hit's key, and `m` carries that product's id, its name, category and
   * image URL ("Unknown", "Unknown" and "" where the product has none) and
   * the hit's similarity score.
   */
  predicate MatchFor(hit: ScoredPoint, catalogue: Catalogue, m: ProductMatch) {
    && ProductKey(hit).Some?
    && catalogue(ProductKey(hit).value).Found?
    && var p := catalogue(ProductKey(hit).value).product;
       && m.id == p.id
       && m.name == (if p.name.Some? then p.name.value else "Unknown")
       && m.category == (if p.category.Some? then p.category.value else "Unknown")
       && m.imageUrl == (if p.imageUrl.Some? then p.imageUrl.value else "")
       && m.similarityScore == hit.score
  }

  /**
   * The matches assembled from `hits`, in hit order; the first lookup that
   * raises turns the whole result into that failure.
   */
  function Assemble(hits: seq<ScoredPoint>, catalogue: Catalogue): (r: Result<seq<ProductMatch>, string>)
    ensures r.Success? ==> |r.value| <= |hits|
    decreases |hits|
  {
    if hits == [] then Success([])
    else Step(Assemble(hits[..|hits| - 1], catalogue), HitFate(hits[|hits| - 1], catalogue))
  }

  /** One turn of the loop: the matches so far, updated by one hit's fate. */
  function Step(prior: Result<seq<ProductMatch>, string>, fate: Fate): (r: Result<seq<ProductMatch>, string>)
    ensures prior.Success? && r.Success? ==> |r.value| <= |prior.value| + 1
  {
    if prior.Failure? then prior
    else
      match fate
      case Skipped => prior
      case Matched(m) => Success(prior.value + [m])
      case Aborted(e) => Failure(e)
  }

  /** Combining the results of two consecutive runs of hits. */
  function Join(a: Result<seq<ProductMatch>, string>, b: Result<seq<ProductMatch>, string>): Result<seq<ProductMatch>, string> {
    if a.Failure? then a else if b.Failure? then b else Success(a.value + b.value)
  }

  lemma StepJoin(a: Result<seq<ProductMatch>, string>, b: Result<seq<ProductMatch>, string>, fate: Fate)
    ensures Step(Join(a, b), fate) == Join(a, Step(b, fate))
  {
    if a.Success? && b.Success? && fate.Matched? {
      assert a.value + (b.value + [fate.m]) == (a.value + b.value) + [fate.m];
    }
  }

  /** Assembly is compositional: the matches of a + b are those of a followed by those of b. */
  lemma {:induction false} AssembleSplit(a: seq<ScoredPoint>, b: seq<ScoredPoint>, catalogue: Catalogue)
    ensures Assemble(a + b, catalogue) == Join(Assemble(a, catalogue), Assemble(b, catalogue))
    decreases |b|
  {
    if b == [] {
      assert a + b == a;
      if Assemble(a, catalogue).Success? {
        assert Assemble(a, catalogue).value + [] == Assemble(a, catalogue).value;
      }
    } else {
      var b' := b[..|b| - 1];
      var fate := HitFate(b[|b| - 1], catalogue);
      assert (a + b)[..|a + b| - 1] == a + b';
      assert (a + b)[|a + b| - 1] == b[|b| - 1];
      calc {
        Assemble(a + b, catalogue);
        Step(Assemble(a + b', catalogue), fate);
        { AssembleSplit(a, b', catalogue); }
        Step(Join(Assemble(a, catalogue), Assemble(b', catalogue)), fate);
        { StepJoin(Assemble(a, catalogue), Assemble(b', catalogue), fate); }
        Join(Assemble(a, catalogue), Step(Assemble(b', catalogue), fate));
      }
    }
  }

  /** Hits whose lookups never raise. */
  ghost predicate NoneAborts(hits: seq<ScoredPoint>, catalogue: Catalogue) {
    forall i :: 0 <= i < |hits| ==> !HitFate(hits[i], catalogue).Aborted?
  }

  /** The number of hits the loop skips. */
  function Skips(hits: seq<ScoredPoint>, catalogue: Catalogue): nat
    decreases |hits|
  {
    if hits == [] then 0
    else Skips(hits[..|hits| - 1], catalogue) + (if HitFate(hits[|hits| - 1], catalogue).Skipped? then 1 else 0)
  }

  /**
   * Soft misses degrade the count and nothing else: when no lookup raises,
   * the request succeeds with one match per hit that was not skipped.
   */
  lemma {:induction false} AssembleCount(hits: seq<ScoredPoint>, catalogue: Catalogue)
    requires NoneAborts(hits, catalogue)
    ensures Assemble(hits, catalogue).Success?
    ensures |Assemble(hits, catalogue).value| == |hits| - Skips(hits, catalogue)
    decreases |hits|
  {
    if hits != [] {
      var prefix := hits[..|hits| - 1];
      assert NoneAborts(prefix, catalogue) by {
        forall i | 0 <= i < |prefix| ensures !HitFate(prefix[i], catalogue).Aborted? {
          assert prefix[i] == hits[i];
        }
      }
      AssembleCount(prefix, catalogue);
      assert !HitFate(hits[|hits| - 1], catalogue).Aborted?;
    }
  }

  /** Assembly fails exactly when some hit's lookup raises, and then with the first such exception. */
  lemma {:induction false} AssembleFailure(hits: seq<ScoredPoint>, catalogue: Catalogue, i: nat)
    requires i < |hits| && HitFate(hits[i], catalogue).Aborted?
    requires forall j :: 0 <= j < i ==> !HitFate(hits[j], catalogue).Aborted?
    ensures Assemble(hits, catalogue) == Failure(HitFate(hits[i], catalogue).error)
  {
    var before := hits[..i];
    assert NoneAborts(before, catalogue) by {
      forall j | 0 <= j < |before| ensures !HitFate(before[j], catalogue).Aborted? {
        assert before[j] == hits[j];
      }
    }
    AssembleCount(before, catalogue);
    assert hits[..i + 1][..i] == before;
    assert Assemble(hits[..i + 1], catalogue) == Failure(HitFate(hits[i], catalogue).error);
    assert hits == hits[..i + 1] + hits[i + 1..];
    AssembleSplit(hits[..i + 1], hits[i + 1..], catalogue);
  }

  /** The last hit either adds its match to those of the hits before it or adds nothing. */
  lemma AssembleLast(hits: seq<ScoredPoint>, catalogue: Catalogue)
    requires hits != [] && Assemble(hits, catalogue).Success?
    ensures Assemble(hits[..|hits| - 1], catalogue).Success?
    ensures HitFate(hits[|hits| - 1], catalogue).Matched? ==>
              Assemble(hits, catalogue).value ==
              Assemble(hits[..|hits| - 1], catalogue).value + [HitFate(hits[|hits| - 1], catalogue).m]
    ensures !HitFate(hits[|hits| - 1], catalogue).Matched? ==>
              Assemble(hits, catalogue).value == Assemble(hits[..|hits| - 1], catalogue).value
  {
  }

  /** The positions of the hits that resolve to a match, in hit order. */
  function MatchIndices(hits: seq<ScoredPoint>, catalogue: Catalogue): seq<nat>
    decreases |hits|
  {
    if hits == [] then []
    else
      var n := |hits| - 1;
      MatchIndices(hits[..n], catalogue) + (if HitFate(hits[n], catalogue).Matched? then [n] else [])
  }

  lemma {:induction false} MatchIndicesOrdered(hits: seq<ScoredPoint>, catalogue: Catalogue)
    ensures forall k :: 0 <= k < |MatchIndices(hits, catalogue)| ==> MatchIndices(hits, catalogue)[k] < |hits|
    ensures forall k, l :: 0 <= k < l < |MatchIndices(hits, catalogue)| ==>
              MatchIndices(hits, catalogue)[k] < MatchIndices(hits, catalogue)[l]
    decreases |hits|
  {
    if hits != [] {
      MatchIndicesOrdered(hits[..|hits| - 1], catalogue);
    }
  }

  lemma {:induction false} MatchIndicesComplete(hits: seq<ScoredPoint>, catalogue: Catalogue, j: nat)
    requires j < |hits| && HitFate(hits[j], catalogue).Matched?
    ensures j in MatchIndices(hits, catalogue)
    decreases |hits|
  {
    var n := |hits| - 1;
    if j < n {
      var prefix := hits[..n];
      assert prefix[j] == hits[j];
      MatchIndicesComplete(prefix, catalogue, j);
      assert MatchIndices(hits, catalogue)[..|MatchIndices(prefix, catalogue)|] == MatchIndices(prefix, catalogue);
    }
  }

  lemma {:induction false} MatchIndicesAssemble(hits: seq<ScoredPoint>, catalogue: Catalogue)
    requires Assemble(hits, catalogue).Success?
    ensures |MatchIndices(hits, catalogue)| == |Assemble(hits, catalogue).value|
    ensures forall k :: 0 <= k < |MatchIndices(hits, catalogue)| ==>
              MatchIndices(hits, catalogue)[k] < |hits| &&
              HitFate(hits[MatchIndices(hits, catalogue)[k]], catalogue) == Matched(Assemble(hits, catalogue).value[k])
    decreases |hits|
  {
    if hits != [] {
      var n := |hits| - 1;
      var prefix := hits[..n];
      var idx, all := MatchIndices(hits, catalogue), Assemble(hits, catalogue).value;
      var earlier, before := MatchIndices(prefix, catalogue), Assemble(prefix, catalogue).value;
      assert |all| == |idx| && all[..|before|] == before && idx[..|earlier|] == earlier
             && (|idx| > |earlier| ==> idx[|earlier|] == n && HitFate(hits[n], catalogue) == Matched(all[|before|])) by {
        AssembleLast(hits, catalogue);
        MatchIndicesAssemble(prefix, catalogue);
      }
      forall k | 0 <= k < |idx| ensures idx[k] < |hits| && HitFate(hits[idx[k]], catalogue) == Matched(all[k]) {
        if k < |earlier| {
          MatchIndicesAssemble(prefix, catalogue);
          assert idx[k] == earlier[k] && all[k] == before[k] && prefix[earlier[k]] == hits[earlier[k]];
        }
      }
    }
  }

  /**
   * Nothing is re-ranked: the matches are exactly the matched hits, in hit
   * order (`idx` maps each match to its hit), each built from the product
   * the catalogue returns for that hit and carrying the hit's score.
   */
  lemma AssembleOrder(hits: seq<ScoredPoint>, catalogue: Catalogue) returns (idx: seq<nat>)
    requires Assemble(hits, catalogue).Success?
    ensures |idx| == |Assemble(hits, catalogue).value|
    ensures forall k :: 0 <= k < |idx| ==> idx[k] < |hits|
    ensures forall k, l :: 0 <= k < l < |idx| ==> idx[k] < idx[l]
    ensures forall k :: 0 <= k < |idx| ==>
              && HitFate(hits[idx[k]], catalogue) == Matched(Assemble(hits, catalogue).value[k])
              && MatchFor(hits[idx[k]], catalogue, Assemble(hits, catalogue).value[k])
    ensures forall j :: 0 <= j < |hits| && HitFate(hits[j], catalogue).Matched? ==> j in idx
  {
    idx := MatchIndices(hits, catalogue);
    MatchIndicesOrdered(hits, catalogue);
    MatchIndicesAssemble(hits, catalogue);
    forall k | 0 <= k < |idx| ensures MatchFor(hits[idx[k]], catalogue, Assemble(hits, catalogue).value[k]) {
      assert HitFate(hits[idx[k]], catalogue) == Matched(Assemble(hits, catalogue).value[k]);
    }
    forall j | 0 <= j < |hits| && HitFate(hits[j], catalogue).Matched? ensures j in idx {
      MatchIndicesComplete(hits, catalogue, j);
    }
  }

  /** When every hit resolves, the i-th match carries the i-th hit's score. */
  lemma {:induction false} AssembleAllResolved(hits: seq<ScoredPoint>, catalogue: Catalogue)
    requires forall i :: 0 <= i < |hits| ==> HitFate(hits[i], catalogue).Matched?
    ensures Assemble(hits, catalogue).Success?
    ensures |Assemble(hits, catalogue).value| == |hits|
    ensures forall i :: 0 <= i < |hits| ==>
              Assemble(hits, catalogue).value[i] == HitFate(hits[i], catalogue).m
              && Assemble(hits, catalogue).value[i].similarityScore == hits[i].score
    decreases |hits|
  {
    if hits != [] {
      var prefix := hits[..|hits| - 1];
      forall i | 0 <= i < |prefix| ensures HitFate(prefix[i], catalogue).Matched? {
        assert prefix[i] == hits[i];
      }
      AssembleAllResolved(prefix, catalogue);
      forall i | 0 <= i < |prefix| ensures prefix[i] == hits[i] { }
    }
  }

  /** The loop of `match_products` and `search_by_text` that appends one match per resolved hit. */
  method AssembleMatches(hits: seq<ScoredPoint>, catalogue: Catalogue) returns (r: Result<seq<ProductMatch>, string>)
    ensures r == Assemble(hits, catalogue)
  {
    var matched: seq<ProductMatch> := [];
    var i := 0;
    while i < |hits|
      invariant 0 <= i <= |hits|
      invariant Assemble(hits[..i], catalogue) == Success(matched)
    {
      var hit := hits[i];
      assert hits[..i + 1][..i] == hits[..i];
      if hit.payload.Some? && hit.payload.value != map[] {
        var productId := if "product_id" in hit.payload.value then hit.payload.value["product_id"] else Null;
        if Truthy(productId) {
          match catalogue(Show(productId))
          case Raised(e) =>
            assert hits == hits[..i + 1] + hits[i + 1..];
            AssembleSplit(hits[..i + 1], hits[i + 1..], catalogue);
            return Failure(e);
          case NotFound =>
          case Found(product) =>
            matched := matched + [ProductMatch(product.id, product.name.GetOr("Unknown"),
                                               product.category.GetOr("Unknown"),
                                               product.imageUrl.GetOr(""), hit.score)];
        }
      }
      i := i + 1;
    }
    assert hits[..|hits|] == hits;
    r := Success(matched);
  }

  // ---------------------------------------------------------------------
  // Responses
  // ---------------------------------------------------------------------

  /** A successful `MatchingResponse`: `total_matches` is the number of matches. */
  function Succeeded(matches: seq<ProductMatch>, message: string): MatchingResponse {
    MatchingResponse(true, matches, |matches|, Some(message))
  }

  /** The response after an exception: no matches, total zero. */
  function Failed(message: string): MatchingResponse {
    MatchingResponse(false, [], 0, Some(message))
  }

  /** What every search response satisfies. */
  predicate WellFormed(r: MatchingResponse) {
    && r.totalMatches == |r.matches|
    && |r.matches| <= TopKResults
    && (!r.success ==> r.matches == [])
  }

  /** The response of `/match` once the hits are assembled. */
  function ImageResponse(assembled: Result<seq<ProductMatch>, string>): MatchingResponse {
    match assembled
    case Success(ms) => Succeeded(ms, "Found " + NatToString(|ms|) + " similar products")
    case Failure(e) => Failed("Product matching failed: " + e)
  }

  /** The response of `/search_by_text` once the hits are assembled. */
  function TextResponse(query: string, assembled: Result<seq<ProductMatch>, string>): MatchingResponse {
    match assembled
    case Success(ms) => Succeeded(ms, "Found " + NatToString(|ms|) + " similar products for query '" + query + "'")
    case Failure(e) => Failed("Text search failed: " + e)
  }

  /** A search of at most `TopKResults` hits yields a well-formed response. */
  lemma ResponsesWellFormed(hits: seq<ScoredPoint>, catalogue: Catalogue, query: string)
    requires |hits| <= TopKResults
    ensures WellFormed(ImageResponse(Assemble(hits, catalogue)))
    ensures WellFormed(TextResponse(query, Assemble(hits, catalogue)))
    ensures ImageResponse(Assemble(hits, catalogue)).success <==> Assemble(hits, catalogue).Success?
    ensures TextResponse(query, Assemble(hits, catalogue)).success <==> Assemble(hits, catalogue).Success?
    ensures Assemble(hits, catalogue).Success? ==>
              && ImageResponse(Assemble(hits, catalogue)).matches == Assemble(hits, catalogue).value
              && TextResponse(query, Assemble(hits, catalogue)).matches == Assemble(hits, catalogue).value
    ensures Assemble(hits, catalogue).Failure? ==>
              && ImageResponse(Assemble(hits, catalogue)).message
                   == Some("Product matching failed: " + Assemble(hits, catalogue).error)
              && TextResponse(query, Assemble(hits, catalogue)).message
                   == Some("Text search failed: " + Assemble(hits, catalogue).error)
  {
  }

  /** The upload guard: a content type that starts with "image/". */
  predicate IsImageUpload(contentType: Option<string>) {
    contentType.Some? && contentType.value != "" && "image/" <= contentType.value
  }

  // ---------------------------------------------------------------------
  // Endpoints
  // ---------------------------------------------------------------------

  /**
   * `/match`. `image` is Failure when the upload cannot be opened as an
   * image; otherwise it is the outcome of image inference.
   */
  method MatchProducts(store: VectorStore, contentType: Option<string>, image: Result<Inference, string>,
                       catalogue: Catalogue) returns (reply: Reply)
    requires store.Valid()
    modifies store
    ensures store.Valid() && store.points == old(store.points)
    ensures store.collection == old(store.collection) || store.collection == Ensured(old(store.collection))
    ensures reply.Body? ==> WellFormed(reply.response)
    ensures !IsImageUpload(contentType) ==>
              reply == HttpError(400, "File must be an image") && store.collection == old(store.collection)
    ensures !(IsImageUpload(contentType) && image.Success? && image.value.Embedded?) ==>
              store.collection == old(store.collection)
    ensures IsImageUpload(contentType) && image.Failure? ==>
              reply == Body(Failed("Product matching failed: " + image.error))
    ensures IsImageUpload(contentType) && image.Success? && image.value.InferenceFailed? ==>
              reply == HttpError(500, "Embedding extraction failed: " + image.value.error)
    ensures IsImageUpload(contentType) && image.Success? && image.value.Embedded? ==>
              var v := image.value.vector;
              && store.collection == Ensured(old(store.collection))
              && (!Fits(old(store.Effective()), ImageSpace, v) ==>
                    reply == Body(Failed("Product matching failed: " + QueryRejected)))
              && (Fits(old(store.Effective()), ImageSpace, v) ==>
                    reply == Body(ImageResponse(Assemble(
                      SearchResult(store.ranking, old(store.points), ImageSpace, v, TopKResults), catalogue))))
  {
    if !IsImageUpload(contentType) {
      return HttpError(400, "File must be an image");
    }
    if image.Failure? {
      return Body(Failed("Product matching failed: " + image.error));
    }
    match image.value
    case InferenceFailed(e) =>
      return HttpError(500, "Embedding extraction failed: " + e);
    case Embedded(v) =>
      if !Fits(store.Effective(), ImageSpace, v) {
        store.EnsureCollection();
        return Body(Failed("Product matching failed: " + QueryRejected));
      }
      var hits := store.SearchEmbeddings(v, TopKResults);
      var assembled := AssembleMatches(hits, catalogue);
      ResponsesWellFormed(hits, catalogue, "");
      reply := Body(ImageResponse(assembled));
  }

  /** `/search_by_text`. `text` is the outcome of text inference on `query`. */
  method SearchByText(store: VectorStore, query: string, text: Inference, catalogue: Catalogue)
    returns (reply: Reply)
    requires store.Valid()
    modifies store
    ensures store.Valid() && store.points == old(store.points)
    ensures store.collection == old(store.collection) || store.collection == Ensured(old(store.collection))
    ensures reply.Body? ==> WellFormed(reply.response)
    ensures query == "" ==>
              reply == HttpError(400, "Query text cannot be empty") && store.collection == old(store.collection)
    ensures !(query != "" && text.Embedded?) ==> store.collection == old(store.collection)
    ensures query != "" && text.InferenceFailed? ==>
              reply == HttpError(500, "Text embedding extraction failed: " + text.error)
    ensures query != "" && text.Embedded? ==>
              && store.collection == Ensured(old(store.collection))
              && (!Fits(old(store.Effective()), TextSpace, text.vector) ==>
                    reply == Body(Failed("Text search failed: " + QueryRejected)))
              && (Fits(old(store.Effective()), TextSpace, text.vector) ==>
                    reply == Body(TextResponse(query, Assemble(
                      SearchResult(store.ranking, old(store.points), TextSpace, text.vector, TopKResults), catalogue))))
  {
    if query == "" {
      return HttpError(400, "Query text cannot be empty");
    }
    match text
    case InferenceFailed(e) =>
      return HttpError(500, "Text embedding extraction failed: " + e);
    case Embedded(v) =>
      if !Fits(store.Effective(), TextSpace, v) {
        store.EnsureCollection();
        return Body(Failed("Text search failed: " + QueryRejected));
      }
      var hits := store.SearchTextEmbeddings(v, TopKResults);
      var assembled := AssembleMatches(hits, catalogue);
      ResponsesWellFormed(hits, catalogue, query);
      reply := Body(TextResponse(query, assembled));
  }

  // ---------------------------------------------------------------------
  // Health
  // ---------------------------------------------------------------------

  datatype HealthResponse = HealthResponse(status: string, tritonOnline: bool, modelsReady: map<string, bool>,
                                           message: Option<string>)

  /**
   * `/health`. `serverReady` is the readiness probe of the inference server
   * (Failure when it raises); `modelsProbe` the readiness of the two models,
   * asked only when the server is up (Failure when either probe raises).
   */
  function HealthCheck(serverReady: Result<bool, string>, modelsProbe: Result<(bool, bool), string>): (h: HealthResponse)
    ensures h.status == "healthy" <==>
              serverReady == Success(true) && modelsProbe.Success? && modelsProbe.value.0 && modelsProbe.value.1
    ensures h.status == "error" <==> serverReady.Failure?
    ensures h.status in {"healthy", "degraded", "error"}
    ensures h.tritonOnline <==> serverReady == Success(true)
    ensures h.modelsReady.Keys == {"dinov2", "bge"}
    ensures h.modelsReady ==
              if serverReady == Success(true) && modelsProbe.Success?
              then map["dinov2" := modelsProbe.value.0, "bge" := modelsProbe.value.1]
              else map["dinov2" := false, "bge" := false]
    ensures !h.tritonOnline ==> !h.modelsReady["dinov2"] && !h.modelsReady["bge"]
    ensures h.status == "healthy" ==> h.message == Some("All systems operational")
    ensures h.status == "degraded" ==> h.message == Some("Some components unavailable")
    ensures serverReady.Failure? ==> h.message == Some("Health check failed: " + serverReady.error)
  {
    match serverReady
    case Failure(e) =>
      HealthResponse("error", false, map["dinov2" := false, "bge" := false], Some("Health check failed: " + e))
    case Success(online) =>
      var initial := map["dinov2" := false, "bge" := false];
      var models := if online && modelsProbe.Success?
                    then initial["dinov2" := modelsProbe.value.0]["bge" := modelsProbe.value.1]
                    else initial;
      assert models.Keys == {"dinov2", "bge"};
      var status := if online && (forall k | k in models :: models[k]) then "healthy" else "degraded";
      HealthResponse(status, online, models,
                     Some(if status == "healthy" then "All systems operational" else "Some components unavailable"))
  }
}
