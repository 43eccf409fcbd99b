# Product matching: vector store, match assembly and catalogue population

A Dafny model of the catalogue ingestion and matching path of the product
matching service:

- `vector_db.dfy` (module `VectorDb`) models `api/vector_db.py`. It is a class
  `VectorStore` whose state is the single collection's configuration (absent
  until `ensure_collection` creates it with the named spaces "image", 768
  dimensions, and "text", 384 dimensions, both cosine) and the stored points
  by identifier. The module also covers id allocation from the point count,
  point construction, insert-or-replace by id, and searches routed to one
  named space with `limit = top_k`.
- `api_main.dfy` (module `Api`) models `api/main.py`. It covers the loop that
  turns search hits into `ProductMatch` records in `/match` and
  `/search_by_text`, the `MatchingResponse` construction, the input guards of
  both endpoints, and the `/health` status rule.
- `populate_db.dfy` (module `PopulateDb`) models `triton-server/populate_db.py`.
  It covers `_load_metadata` and the `populate` loop, with its skip rules,
  payloads, four parallel buffers, the flush at `BATCH_SIZE` and the final
  flush.
- `payloads.dfy` models payload values with Python truthiness and `str`.
- `wrappers.dfy` holds `Option` and `Result`.

Several things outside the code are parameters of the model:

- The engine's nearest-neighbour ranking is an opaque function fixed when the
  store is opened.
- The product catalogue's `get_product` is a function from key to found,
  not found or raised.
- File existence, `add_product`, the two encoders and the failure of the
  n-th upsert attempt are oracles collected in `PopulateDb.Env`.

The `populate` loop is an imperative method, proved against an item-by-item
specification `Ingest`. Its invariant ties the products created, the batches
flushed and the current buffers to `Ingest` of the items read so far. It also
ties the batches, the buffers and the number of flush attempts to
`Batching`, the buffering rule applied to the entries `Ingest` buffers.

Where the code and the documented behaviour differ, the model follows the
code:

- `get_product` builds an `ObjectId` from the key and raises on a malformed
  one. The exception leaves the hit loop, so one such hit turns the whole
  response into `success=False` (`Api.AssembleFailure`). It is not a skipped
  hit.
- `ensure_collection` keeps an existing collection whatever its configuration.
- Count-based ids are guaranteed collision-free when the stored ids are
  exactly 0 … count − 1 (`VectorDb.AutoUpsertDense`). Otherwise a new id can
  replace a stored point (`VectorDb.AutoIdsCanOverwrite`).
- An item whose `image_path` is absolute is never stored. `relative_to("data")`
  raises before `add_product`, inside the per-item handler (`PopulateDb.Process`).

## Model

| member | source | states |
|---|---|---|
| VectorDb.PointsFor | api/vector_db.py:93-105 | The number of points is the minimum of the lengths of ids, image embeddings and payloads. Point i pairs the i-th id, image embedding and payload. It always has an "image" vector, has a "text" vector exactly when text embeddings are non-empty and i is within them (and then it is the i-th), and has no other space. |
| VectorDb.BuildPoints | api/vector_db.py:93-105 | The point-building loop yields exactly `PointsFor`. |
| VectorDb.UpsertedFrame | api/vector_db.py:107 | After an upsert, the stored ids are the old ids plus the batch's ids. Every point whose id is not in the batch is unchanged. |
| VectorDb.UpsertedStores | api/vector_db.py:107 | Insert-or-replace by id: a batch point whose id does not recur later in the batch is what the store holds under that id. |
| VectorDb.UpsertedConsistent | api/vector_db.py:101-107 | Upserting points whose vectors fit the declared spaces keeps every stored point under its own id with vectors of the declared dimensions. |
| VectorDb.AutoUpsertDense | api/vector_db.py:86-107 | When the stored ids are exactly 0 … count − 1 and the batch is numbered from count: every old point stays, every batch point is stored under its id, the count grows by the batch size, and the ids stay dense. |
| VectorDb.AutoUpsertStores | api/vector_db.py:86-107 | An upsert without ids and without payloads into a store whose ids are exactly 0 … count − 1 stores the i-th image embedding under count + i, with the empty payload and a "text" vector exactly when one is given at i. No stored point is replaced, the count grows by the number of images, and the ids stay dense. |
| VectorDb.AutoIdsCanOverwrite | api/vector_db.py:86-88 | With ids 0 and 2 stored, the allocated id is 2, and the upsert replaces the point already stored there. |
| VectorDb.SearchResult | api/vector_db.py:116-120 | A search returns at most `limit` hits: the first min(limit, n) of the engine's ranking of the points that have a vector in the queried space. |
| VectorDb.VectorStore.constructor | api/vector_db.py:42-50 | Opening the store over a consistent state gives a valid store with exactly that state. |
| VectorDb.VectorStore.EnsureCollection | api/vector_db.py:53-65 | An existing collection is left exactly as it is, whatever its configuration. Otherwise the collection becomes "image" → 768/cosine and "text" → 384/cosine. Points never change. |
| VectorDb.EnsureIdempotent | api/vector_db.py:53-57 | Ensuring the collection twice is the same as ensuring it once. |
| VectorDb.VectorStore.UpsertProductEmbeddings | api/vector_db.py:68-107 | An empty batch changes nothing, not even the collection. Otherwise the collection is ensured, and the points become the old points upserted with `PointsFor` of the assigned ids, the image embeddings, the payloads or empty payloads, and the text embeddings. The store stays consistent. |
| VectorDb.VectorStore.UpsertEmbeddings | api/vector_db.py:144-150 | The same upsert, with no text embeddings. |
| VectorDb.VectorStore.Query | api/vector_db.py:110-137 | Ensures the collection, leaves the points unchanged, and returns `SearchResult` for the given space and limit. |
| VectorDb.VectorStore.SearchEmbeddings | api/vector_db.py:110-120 | Searches the "image" space with limit `top_k`. |
| VectorDb.VectorStore.SearchImageEmbeddings | api/vector_db.py:123-125 | The same search as `search_embeddings`. |
| VectorDb.VectorStore.SearchTextEmbeddings | api/vector_db.py:128-137 | Searches the "text" space with limit `top_k`. |
| Payloads.NatToString | api/main.py:322 | A count is rendered as a non-empty string of decimal digits that denotes the count, with no leading zero unless the count is 0. |
| Api.ProductKey | api/main.py:296-302 | A hit has a lookup key exactly when its payload is present and non-empty and holds a truthy "product_id". The key is `str` of that value. |
| Api.Assemble | api/main.py:293-311 | The assembled matches are never more than the hits. |
| Api.Step | api/main.py:295-311 | One hit adds at most one match. |
| Api.AssembleSplit | api/main.py:295-311 | The matches of hits a + b are those of a followed by those of b, and the first failure wins. |
| Api.AssembleLast | api/main.py:303-311 | The last hit appends its match when it matched, and otherwise appends nothing. |
| Api.AssembleCount | api/main.py:296-303 | When no lookup raises, assembly succeeds, with one match per hit that was not skipped. |
| Api.AssembleFailure | api/main.py:293-339 | Assembly fails exactly when a lookup raises, and then with the first such exception. |
| Api.MatchIndicesOrdered | api/main.py:295-311 | The positions of the matched hits are within the hits and strictly increasing. |
| Api.MatchIndicesComplete | api/main.py:295-311 | Every hit that resolves to a match appears among those positions. |
| Api.MatchIndicesAssemble | api/main.py:295-311 | The k-th match is the match of the hit at the k-th matched position. |
| Api.AssembleOrder | api/main.py:295-311 | Nothing is re-ranked. The matches are exactly the matched hits, in hit order. Match k is built from the product the catalogue returns for its hit: that product's `_id`, its name and category or "Unknown", its image URL or "", and the hit's score. |
| Api.AssembleAllResolved | api/main.py:304-311 | When every hit resolves, the i-th match belongs to the i-th hit and carries its score. |
| Api.AssembleMatches | api/main.py:293-311 | The loop returns exactly `Assemble` of the hits. |
| Api.ResponsesWellFormed | api/main.py:289-339 | For a search of at most `TOP_K_RESULTS` hits, in both endpoints: `total_matches == len(matches)`, and there are at most 5 matches. Success holds exactly when assembly succeeded, and then the matches are the assembled ones. A failed response has no matches and `total_matches` 0, and its message is the endpoint's prefix followed by the exception. |
| Api.MatchProducts | api/main.py:266-339 | A non-image upload is HTTP 400 and changes nothing. An unreadable image gives success False. An inference failure is HTTP 500. On these three paths the collection is left as it was. Otherwise the collection is ensured, the image space is searched with limit 5, and the response is built from the assembled matches. The points are never changed. |
| Api.SearchByText | api/main.py:342-411 | An empty query is HTTP 400 and changes nothing. An inference failure is HTTP 500. On these two paths the collection is left as it was. Otherwise the collection is ensured, the text space is searched with limit 5 and the response is built from the assembled matches. The points are never changed. |
| Api.HealthCheck | api/main.py:226-263 | The status is "healthy" exactly when the server is online and both models are ready, "error" exactly when the server probe raises, and otherwise "degraded". The message follows the status. `models_ready` holds the two model probes when the server is online and both probes answered, and both false otherwise. |
| PopulateDb.LoadMetadata | triton-server/populate_db.py:46-51 | A missing metadata file gives the file-not-found error. Otherwise the result is the first min(n, 200) entries, in file order. |
| PopulateDb.Process | triton-server/populate_db.py:68-102 | A missing "filename" with a relative image path crashes the run. A missing image file skips the item. An absolute path never creates a product. A product is created, with the file name, the category and "images/<filename>", before the embeddings are computed. A buffered item carries both encoders' results and the payload {product_id, filename, category}. |
| PopulateDb.ProcessCreates | triton-server/populate_db.py:70-90 | For an item with a relative image path whose file exists: a missing category rejects it. Otherwise, a failing `add_product` rejects it. A successful `add_product` creates the product with the returned id, and the item is buffered exactly when both encoders then succeed. |
| PopulateDb.IngestCrashSticks | triton-server/populate_db.py:68-72 | An exception raised outside the per-item handler ends the run, and later items change nothing. |
| PopulateDb.EntriesHaveProducts | triton-server/populate_db.py:79-102 | Every buffered entry belongs to a product created for it, in the same order. Its payload carries that product's id, file name and category. |
| PopulateDb.Buffers.Add | triton-server/populate_db.py:99-102 | The four buffers are appended together, so they stay columns of the same entries. |
| PopulateDb.Populate | triton-server/populate_db.py:58-129 | Without metadata, the run raises and changes nothing. Otherwise the run creates exactly the products of `Ingest`, and an item crash is the run's crash. The batches are those of the batching rule `Batching` applied to `Ingest`'s entries. When no item crashes, the run ends as `Finish` says: the remainder is flushed by the next attempt, and the run's crash is that attempt's exception, if any. When an item crashes, the batches are those flushed before it. When no flush ever raises, the run's crash is exactly `Ingest`'s. The store is the old store with the batches flushed in order. Every batch but the last holds at least 32 entries, and exactly 32 when no flush raises. With dense ids, every flushed entry gets its own new id. |
| PopulateDb.PopulateItems | triton-server/populate_db.py:63-129 | The loop and the final flush together follow `Ingest` of the loaded items. Without an item crash, the batches and the crash are `Finish` of `Batching` of `Ingest`'s entries. With one, the batches are `Batching`'s. When no flush ever raises, the run crashes exactly as `Ingest` does. |
| PopulateDb.BatchingKeeps | triton-server/populate_db.py:99-115 | The batching rule loses and reorders nothing: the flushed batches followed by the buffers are the entries. Flushed batches hold at least 32 entries, and exactly 32 with fewer buffered when no flush raises. The buffers hold 32 or more only after a failed attempt. |
| PopulateDb.BatchStep | triton-server/populate_db.py:99-115 | One entry under the batching rule appends that entry and keeps the rule's invariant. |
| PopulateDb.FinishKeeps | triton-server/populate_db.py:105-129 | At the end of the run the batches are shaped. Without a final exception they hold every entry. With one, they are the batches flushed in the loop, a prefix of the entries. No exception arises when no flush raises. |
| PopulateDb.BatchingNext | triton-server/populate_db.py:86-115 | An item changes the batching state only when it reaches the buffers, and then by one application of the rule. |
| PopulateDb.Concluded | triton-server/populate_db.py:68-129 | A crash inside the loop stops the items there, and it is `Ingest`'s crash. Otherwise every item was read, `Ingest` has no crash, and the remainder was flushed unless that flush raised. The loop's batches, buffers and attempts are `Batching` of all of `Ingest`'s entries. |
| PopulateDb.ItemLoop | triton-server/populate_db.py:68-121 | Loop invariant: the products, the flushed batches followed by the buffers, and the crash are `Ingest` of the items read so far. The buffers stay zipped. Flushed batches are full, and with no failures they are exactly 32 long with fewer than 32 entries buffered. The buffers hold 32 or more entries only when the last flush attempt raised. The batches, the buffers and the number of attempts are exactly `Batching` of the entries so far, so a failed flush is retried after the next buffered item. |
| PopulateDb.Step | triton-server/populate_db.py:68-121 | One turn of the loop advances the products, the entries and the crash as `Advance` does for the item's outcome. It changes the batches, the buffers and the attempt count by `BatchOutcome`: by one application of the batching rule when the item is buffered, and not at all otherwise. It keeps the rule that full buffers mean the last flush attempt raised. |
| PopulateDb.Accept | triton-server/populate_db.py:99-115 | The entry is appended to the buffers. Below 32 entries, nothing is flushed and no attempt is counted. At 32 or more, one flush attempt is made. If the environment lets that attempt succeed, the buffers plus the entry become a new batch and the buffers are cleared. If the attempt raises, nothing is flushed and the buffers keep the entry. Nothing is lost or reordered. The new state is one application of the batching rule `Batch`. |
| PopulateDb.FlushIfFull | triton-server/populate_db.py:105-115 | Buffers below 32 entries are left alone. At 32 or more, one attempt is counted. A successful flush moves the buffers into a new batch and clears them, and a failed one keeps them. |
| PopulateDb.FlushRemainder | triton-server/populate_db.py:124-129 | Empty buffers mean no flush and no crash. Non-empty buffers mean one flush attempt, whose outcome is the environment's for that attempt. If it succeeds, the buffers become the last batch. If it raises, the run ends with that exception and nothing more flushed. |
| PopulateDb.Flush | triton-server/populate_db.py:106-110 | A flush is the upsert without ids of the buffered images, texts and payloads. |
| PopulateDb.FlushIntoIsUpsert | triton-server/populate_db.py:106-110 | The store after a flush equals the store's upsert of the points built from the batch under ids counted from the point count. |
| PopulateDb.FlushIntoUpserts | triton-server/populate_db.py:106-110 | Flushing a batch upserts, in order, the points its entries make under ids counted from the store's size. |
| PopulateDb.UpsertedSnoc | api/vector_db.py:107 | Upserting one more point is one more map update. |
| PopulateDb.FlushIntoStores | triton-server/populate_db.py:106-110 | One flush stores the i-th entry of the batch under count + i, with its image and text vectors and its payload. |
| PopulateDb.FlushIntoKeeps | triton-server/populate_db.py:106-110 | One flush leaves every point below the old count unchanged. |
| PopulateDb.FlushIntoDense | triton-server/populate_db.py:106-110 | One flush into a store with ids 0 … count − 1 leaves ids 0 … count + |batch| − 1. |
| PopulateDb.FlushAllDense | triton-server/populate_db.py:105-129 | Flushing into a store with dense ids keeps the ids dense, with one new id per flushed entry. |
| PopulateDb.FlushAllKeeps | triton-server/populate_db.py:105-129 | Flushing into a store with dense ids overwrites none of its points. |
| PopulateDb.FlushAllStores | triton-server/populate_db.py:105-129 | Flushing into a store with dense ids stores the t-th flushed entry under count + t. |
| PopulateDb.FullAppend | triton-server/populate_db.py:105-115 | A batch flushed from the loop is full. With no flush failures, it holds exactly 32 entries. |
| PopulateDb.LastBatch | triton-server/populate_db.py:124-129 | Appending a non-empty remainder, flushed at the end, to full batches keeps the batches shaped. |
| PopulateDb.BatchShapes | triton-server/populate_db.py:105-129 | The flushed batches are non-empty. Every batch but the last holds at least 32 entries, and with no failures every batch holds exactly 32 except the last, which holds at most 32. |
| PopulateDb.ReadyFits | triton-server/populate_db.py:86-90 | When the encoders produce vectors of the declared dimensions, a buffered entry fits the collection. |

## Left out

- Image decoding, Triton inference, tokenisation and float normalisation (api/main.py:97-212). An endpoint receives the outcome of inference as a value.
- Nearest-neighbour ranking and cosine scores: the ranking is an opaque function, and scores are copied through unchanged.
- `get_client` is not modelled: the store is a single object passed to the operations, without the host/path selection.
- Concurrency, including the race between two count-based id allocations: the model is sequential.
- The MongoDB wrappers in api/database.py and the logging in api/log_utils.py are not part of this model. `get_product` and `add_product` are oracles, and logging and `print` are left out.
- Timing fields (`processing_time_ms`), FastAPI decorators and exception handlers, the Streamlit frontend, and the model export and loading scripts are not part of this model.
- Vector lengths are a precondition of upsert and search rather than a checked error, because the code never checks them.
- Api.MatchProducts: the engine's own message for a query vector of the wrong length is replaced by the stand-in `QueryRejected`.
- Api.SearchByText: the engine's own message for a query vector of the wrong length is replaced by the stand-in `QueryRejected`.
- PopulateDb.Populate: assumes that an upsert that raises leaves the store unchanged. What a partially applied upsert leaves behind is not modelled.
- PopulateDb.Process: paths are plain strings. `Path` normalisation is not modelled, and "absolute" means starting with "/".
- PopulateDb.Process: payload values are strings. The float arrays become `real` sequences without `float32` rounding.
- Payloads: float payload values are not modelled. Payloads hold strings, integers, booleans and None.
- Api.MatchProducts: a search or `ensure_collection` that raises for another reason, such as an unreachable engine, is not modelled. The store always answers. The code would turn such an exception into `success=False` (api/main.py:327-339).
- Api.SearchByText: a search or `ensure_collection` that raises for another reason, such as an unreachable engine, is not modelled. The code would turn such an exception into `success=False` (api/main.py:399-411).
- VectorDb.VectorStore.UpsertProductEmbeddings: caller ids are natural numbers. The code accepts any `int`, and the engine rejects a negative id by raising; that error path is not modelled.
- VectorDb.Upserted: a batch that repeats an id is taken to keep the last point with that id, applying the points in order. The code does not show the engine's rule for repeated ids within one request.
- The final log and print lines of `populate`, including its "1024d" text, are not modelled.
