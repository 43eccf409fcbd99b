/**
 * The ingestion script triton-server/populate_db.py: it reads the first
 * `MAX_ITEMS` metadata entries, creates one product document per usable
 * item, computes that item's image and text embeddings, and buffers them
 * with a payload in three parallel lists (plus the list of product ids)
 * that are flushed to the vector store whenever they hold `BATCH_SIZE`
 * items, and once more at the end for the remainder.
 *
 * File existence, the product catalogue's `add_product`, the two encoders
 * and the failure of a flush are oracles collected in `Env`. The per-item
 * work is the pure function `Process`; the loop with its buffers is the
 * method `Populate`, proved against the item-by-item specification
 * `Ingest` and the buffering rule `Batching`.
 */
module PopulateDb {
  import opened Wrappers
  import opened Payloads
  import opened VectorDb

  const MaxItems: nat := 200
  const BatchSize: nat := 32
  const DataDir: string := "data"
  const MetadataMissing: string := "metadata.json not found – run prepare_dataset.py first"

  /** One metadata entry; a key absent from the JSON object is None. */
  datatype Item = Item(imagePath: Option<string>, filename: Option<string>, category: Option<string>)

  /** The product document `add_product` inserts. */
  datatype ProductDoc = ProductDoc(name: string, category: string, imageUrl: string)

  /** One buffered item: an element of each of the four parallel buffers. */
  datatype Entry = Entry(image: Vector, text: Vector, payload: Payload, productId: string)

  /**
   * The oracles: whether a file exists; `add_product`, given the document and
   * the number of products inserted before it (so that every insert may get
   * its own id); the two encoders (Failure when they raise); and whether the
   * n-th flush attempt raises.
   */
  datatype Env = Env(
    fileExists: string -> bool,
    addProduct: (ProductDoc, nat) -> Result<string, string>,
    encodeImage: string -> Result<Vector, string>,
    encodeText: string -> Result<Vector, string>,
    flushError: nat -> Option<string>)

  /** `_load_metadata`: the first `MAX_ITEMS` entries, in file order. */
  function LoadMetadata(file: Option<seq<Item>>): (r: Result<seq<Item>, string>)
    ensures file.None? ==> r == Failure(MetadataMissing)
    ensures file.Some? ==> r.Success? && |r.value| == Min(|file.value|, MaxItems)
    ensures file.Some? ==> r.value == file.value[..|r.value|]
  {
    if file.None? then Failure(MetadataMissing)
    else if |file.value| <= MaxItems then Success(file.value)
    else Success(file.value[..MaxItems])
  }

  predicate IsAbsolute(path: string) {
    |path| > 0 && path[0] == '/'
  }

  /**
   * The image path of an item: an absolute "image_path" is kept; anything
   * else is replaced by data/images/<filename>, and a missing "filename"
   * there raises outside the per-item exception handler.
   */
  function ImagePath(item: Item): Result<string, string> {
    var given := item.imagePath.GetOr("");
    if IsAbsolute(given) then Success(given)
    else if item.filename.None? then Failure("KeyError: 'filename'")
    else Success(DataDir + "/images/" + item.filename.value)
  }

  /** `Path.relative_to(DATA_DIR)`: the path below "data", or an error. */
  function RelativeToDataDir(path: string): Result<string, string> {
    if DataDir + "/" <= path then Success(path[|DataDir| + 1..])
    else Failure(path + " is not in the subpath of " + DataDir)
  }

  /** The payload stored with an item's vectors. */
  function ItemPayload(productId: string, filename: string, category: string): Payload {
    map["product_id" := Str(productId), "filename" := Str(filename), "category" := Str(category)]
  }

  /** What one turn of the loop does with an item. */
  datatype Outcome =
    | Crash(error: string)                                       // raised outside the handler: the run stops
    | MissingImage(path: string)                                 // logged and skipped
    | Rejected(error: string)                                    // raised before a product was created
    | Orphaned(productId: string, doc: ProductDoc, error: string) // raised after the product was created
    | Ready(productId: string, doc: ProductDoc, entry: Entry)    // buffered

  /** The body of the loop for one item, up to the buffering. */
  function Process(item: Item, env: Env, inserted: nat): (o: Outcome)
    ensures ImagePath(item).Failure? <==> o.Crash?
    ensures ImagePath(item).Success? && !env.fileExists(ImagePath(item).value) ==>
              o == MissingImage(ImagePath(item).value)
    ensures IsAbsolute(item.imagePath.GetOr("")) ==> !o.Orphaned? && !o.Ready?
    ensures o.Orphaned? || o.Ready? ==>
              && item.filename.Some? && item.category.Some?
              && o.doc == ProductDoc(item.filename.value, item.category.value, "images/" + item.filename.value)
              && env.addProduct(o.doc, inserted) == Success(o.productId)
    ensures o.Ready? ==>
              && env.encodeImage(ImagePath(item).value) == Success(o.entry.image)
              && env.encodeText(item.category.value) == Success(o.entry.text)
              && o.entry.productId == o.productId
              && o.entry.payload == ItemPayload(o.productId, item.filename.value, item.category.value)
  {
    match ImagePath(item)
    case Failure(e) => Crash(e)
    case Success(path) =>
      if !env.fileExists(path) then MissingImage(path)
      else if item.filename.None? then Rejected("KeyError: 'filename'")
      else if item.category.None? then Rejected("KeyError: 'category'")
      else
        match RelativeToDataDir(path)
        case Failure(e) => Rejected(e)
        case Success(url) =>
          var doc := ProductDoc(item.filename.value, item.category.value, url);
          match env.addProduct(doc, inserted)
          case Failure(e) => Rejected(e)
          case Success(pid) =>
            match env.encodeImage(path)
            case Failure(e) => Orphaned(pid, doc, e)
            case Success(img) =>
              match env.encodeText(item.category.value)
              case Failure(e) => Orphaned(pid, doc, e)
              case Success(txt) =>
                Ready(pid, doc, Entry(img, txt, ItemPayload(pid, item.filename.value, item.category.value), pid))
  }

  /**
   * The converse of `Process`'s contract, for an item with a relative image
   * path whose file exists: without a category it is rejected; otherwise it
   * is rejected when `add_product` fails, and when `add_product` succeeds its
   * product exists from then on and it is buffered exactly when both
   * encoders succeed.
   */
  lemma ProcessCreates(item: Item, env: Env, inserted: nat)
    requires !IsAbsolute(item.imagePath.GetOr("")) && item.filename.Some?
    requires env.fileExists(DataDir + "/images/" + item.filename.value)
    ensures item.category.None? ==> Process(item, env, inserted) == Rejected("KeyError: 'category'")
    ensures item.category.Some? ==>
              var path := DataDir + "/images/" + item.filename.value;
              var doc := ProductDoc(item.filename.value, item.category.value, "images/" + item.filename.value);
              var o := Process(item, env, inserted);
              && (env.addProduct(doc, inserted).Failure? ==> o == Rejected(env.addProduct(doc, inserted).error))
              && (env.addProduct(doc, inserted).Success? ==>
                    && (o.Orphaned? || o.Ready?)
                    && o.productId == env.addProduct(doc, inserted).value
                    && (o.Ready? <==> env.encodeImage(path).Success? && env.encodeText(item.category.value).Success?))
  {
    var path := DataDir + "/images/" + item.filename.value;
    assert ImagePath(item) == Success(path);
    assert DataDir + "/" <= path;
    assert path[|DataDir| + 1..] == "images/" + item.filename.value;
    assert RelativeToDataDir(path) == Success("images/" + item.filename.value);
  }

  // ---------------------------------------------------------------------
  // The item-by-item specification
  // ---------------------------------------------------------------------

  /** The products created so far, the entries buffered so far, and the crash that stopped the run, if any. */
  datatype Progress = Progress(products: seq<(string, ProductDoc)>, entries: seq<Entry>, crash: Option<string>)

  function Advance(p: Progress, o: Outcome): Progress {
    match o
    case Crash(e) => p.(crash := Some(e))
    case MissingImage(_) => p
    case Rejected(_) => p
    case Orphaned(pid, doc, _) => p.(products := p.products + [(pid, doc)])
    case Ready(pid, doc, entry) => p.(products := p.products + [(pid, doc)], entries := p.entries + [entry])
  }

  /** The items processed in order until one crashes. */
  function Ingest(items: seq<Item>, env: Env): Progress
    decreases |items|
  {
    if items == [] then Progress([], [], None)
    else
      var p := Ingest(items[..|items| - 1], env);
      if p.crash.Some? then p else Advance(p, Process(items[|items| - 1], env, |p.products|))
  }

  /** A crash ends the run: later items change nothing. */
  lemma {:induction false} IngestCrashSticks(a: seq<Item>, b: seq<Item>, env: Env)
    requires Ingest(a, env).crash.Some?
    ensures Ingest(a + b, env) == Ingest(a, env)
    decreases |b|
  {
    if b == [] {
      assert a + b == a;
    } else {
      var b' := b[..|b| - 1];
      assert (a + b)[..|a + b| - 1] == a + b';
      IngestCrashSticks(a, b', env);
    }
  }

  /**
   * Every buffered entry belongs to a product created for it, in the same
   * order (`idx` maps entries to products), and its payload carries that
   * product's id, file name and category.
   */
  lemma {:induction false} EntriesHaveProducts(items: seq<Item>, env: Env) returns (idx: seq<nat>)
    ensures |idx| == |Ingest(items, env).entries|
    ensures forall k :: 0 <= k < |idx| ==> idx[k] < |Ingest(items, env).products|
    ensures forall k, l :: 0 <= k < l < |idx| ==> idx[k] < idx[l]
    ensures forall k :: 0 <= k < |idx| ==>
              var e := Ingest(items, env).entries[k];
              var product := Ingest(items, env).products[idx[k]];
              && e.productId == product.0
              && e.payload == ItemPayload(product.0, product.1.name, product.1.category)
    decreases |items|
  {
    if items == [] {
      idx := [];
    } else {
      var before := items[..|items| - 1];
      var p := Ingest(before, env);
      var all := Ingest(items, env);
      var earlier := EntriesHaveProducts(before, env);
      if p.crash.Some? {
        idx := earlier;
      } else {
        var o := Process(items[|items| - 1], env, |p.products|);
        if o.Ready? {
          assert all.entries == p.entries + [o.entry];
          assert all.products == p.products + [(o.productId, o.doc)];
          idx := earlier + [|p.products|];
          forall k | 0 <= k < |idx|
            ensures idx[k] < |all.products|
            ensures all.entries[k].productId == all.products[idx[k]].0
            ensures all.entries[k].payload ==
                    ItemPayload(all.products[idx[k]].0, all.products[idx[k]].1.name, all.products[idx[k]].1.category)
          {
            if k < |earlier| {
              assert all.entries[k] == p.entries[k] && all.products[idx[k]] == p.products[earlier[k]];
            } else {
              assert all.entries[k] == o.entry && all.products[idx[k]] == (o.productId, o.doc);
            }
          }
        } else if o.Orphaned? {
          assert all.entries == p.entries;
          assert all.products == p.products + [(o.productId, o.doc)];
          idx := earlier;
          forall k | 0 <= k < |idx| ensures all.products[idx[k]] == p.products[earlier[k]] { }
        } else {
          assert all == Advance(p, o);
          idx := earlier;
        }
      }
    }
  }

  // ---------------------------------------------------------------------
  // The batching rule
  // ---------------------------------------------------------------------

  /** The batches flushed so far, the entries still buffered, and the number of flush attempts made. */
  datatype Batched = Batched(flushed: seq<seq<Entry>>, pending: seq<Entry>, attempts: nat)

  /**
   * One entry appended to the buffers. Once they hold `BATCH_SIZE` entries a
   * flush is attempted: if it succeeds the buffers become a batch and are
   * cleared; if it raises they are kept, and the attempt is repeated after
   * the next entry.
   */
  function Batch(b: Batched, e: Entry, env: Env): Batched {
    var pending := b.pending + [e];
    if |pending| < BatchSize then Batched(b.flushed, pending, b.attempts)
    else if env.flushError(b.attempts).None? then Batched(b.flushed + [pending], [], b.attempts + 1)
    else Batched(b.flushed, pending, b.attempts + 1)
  }

  /** The buffering rule applied to the entries in order, starting from empty buffers. */
  function Batching(entries: seq<Entry>, env: Env): Batched
    decreases |entries|
  {
    if entries == [] then Batched([], [], 0)
    else Batch(Batching(entries[..|entries| - 1], env), entries[|entries| - 1], env)
  }

  /** What one item's outcome does to the buffers: only an embedded item reaches them. */
  function BatchOutcome(b: Batched, o: Outcome, env: Env): Batched {
    if o.Ready? then Batch(b, o.entry, env) else b
  }

  /**
   * The flush after the loop: the remainder, if any, is flushed by the next
   * attempt; the batches in the end, and the exception of that attempt.
   */
  function Finish(b: Batched, env: Env): (seq<seq<Entry>>, Option<string>) {
    if b.pending == [] then (b.flushed, None)
    else
      match env.flushError(b.attempts)
      case None => (b.flushed + [b.pending], None)
      case Some(e) => (b.flushed, Some(e))
  }

  /**
   * The batching rule loses and reorders nothing: the flushed batches
   * followed by the buffers are the entries. Flushed batches are full, and
   * exactly `BATCH_SIZE` long with fewer entries buffered when no flush
   * raises; the buffers hold `BATCH_SIZE` or more only after a failed attempt.
   */
  lemma {:induction false} BatchingKeeps(entries: seq<Entry>, env: Env)
    ensures Flatten(Batching(entries, env).flushed) + Batching(entries, env).pending == entries
    ensures AtLeastFull(Batching(entries, env).flushed)
    ensures Retried(env, Batching(entries, env).pending, Batching(entries, env).attempts)
    ensures NeverFails(env) ==>
              ExactlyFull(Batching(entries, env).flushed) && |Batching(entries, env).pending| < BatchSize
    decreases |entries|
  {
    if entries != [] {
      var front := entries[..|entries| - 1];
      BatchingKeeps(front, env);
      BatchStep(Batching(front, env), entries[|entries| - 1], env);
      assert front + [entries[|entries| - 1]] == entries;
    }
  }

  /** One entry under the batching rule keeps its invariant and appends the entry. */
  lemma BatchStep(b: Batched, e: Entry, env: Env)
    requires AtLeastFull(b.flushed)
    requires NeverFails(env) ==> ExactlyFull(b.flushed) && |b.pending| < BatchSize
    ensures Flatten(Batch(b, e, env).flushed) + Batch(b, e, env).pending == Flatten(b.flushed) + b.pending + [e]
    ensures AtLeastFull(Batch(b, e, env).flushed)
    ensures Retried(env, Batch(b, e, env).pending, Batch(b, e, env).attempts)
    ensures NeverFails(env) ==> ExactlyFull(Batch(b, e, env).flushed) && |Batch(b, e, env).pending| < BatchSize
  {
    var pending := b.pending + [e];
    if |pending| >= BatchSize && env.flushError(b.attempts).None? {
      FullAppend(b.flushed, pending, env);
      assert (b.flushed + [pending])[..|b.flushed|] == b.flushed;
    }
  }

  /**
   * The run's end under the batching rule: the batches are shaped; without
   * an exception they hold every entry, and with one they are the batches
   * flushed inside the loop, a prefix of the entries. No exception arises
   * when no flush raises.
   */
  lemma FinishKeeps(entries: seq<Entry>, env: Env)
    ensures Shaped(Finish(Batching(entries, env), env).0, env)
    ensures Finish(Batching(entries, env), env).1.None? ==> Flatten(Finish(Batching(entries, env), env).0) == entries
    ensures Finish(Batching(entries, env), env).1.Some? ==>
              && Finish(Batching(entries, env), env).0 == Batching(entries, env).flushed
              && Flatten(Finish(Batching(entries, env), env).0) <= entries
    ensures NeverFails(env) ==> Finish(Batching(entries, env), env).1.None?
  {
    var b := Batching(entries, env);
    BatchingKeeps(entries, env);
    if b.pending != [] && env.flushError(b.attempts).None? {
      LastBatch(b.flushed, b.pending, env);
      assert (b.flushed + [b.pending])[..|b.flushed|] == b.flushed;
    } else {
      BatchShapes(b.flushed, env);
    }
  }

  /** The entries an item adds to the specification are batched by the item's outcome. */
  lemma BatchingNext(p: Progress, o: Outcome, env: Env)
    ensures Batching(Advance(p, o).entries, env) == BatchOutcome(Batching(p.entries, env), o, env)
  {
    if o.Ready? {
      assert (p.entries + [o.entry])[..|p.entries|] == p.entries;
    }
  }

  // ---------------------------------------------------------------------
  // Batches and the store
  // ---------------------------------------------------------------------

  /** The image-embedding column of a run of entries. */
  function Images(es: seq<Entry>): seq<Vector> {
    seq(|es|, k requires 0 <= k < |es| => es[k].image)
  }

  /** The text-embedding column. */
  function Texts(es: seq<Entry>): seq<Vector> {
    seq(|es|, k requires 0 <= k < |es| => es[k].text)
  }

  /** The payload column. */
  function BatchPayloads(es: seq<Entry>): seq<Payload> {
    seq(|es|, k requires 0 <= k < |es| => es[k].payload)
  }

  /** The entries of the flushed batches, one batch after another. */
  function Flatten(batches: seq<seq<Entry>>): seq<Entry>
    decreases |batches|
  {
    if batches == [] then [] else Flatten(batches[..|batches| - 1]) + batches[|batches| - 1]
  }

  /**
   * The store after one flush: the i-th entry of the batch is stored under
   * the id count + i, count being the number of points before the flush
   * (`FlushIntoIsUpsert` shows this is the upsert without ids).
   */
  function FlushInto(points: map<PointId, Point>, batch: seq<Entry>): map<PointId, Point>
    decreases |batch|
  {
    if batch == [] then points
    else
      var n := |batch| - 1;
      FlushInto(points, batch[..n])[|points| + n := EntryPoint(|points| + n, batch[n])]
  }

  /** The store after the flushes, in order. */
  function FlushAll(points: map<PointId, Point>, batches: seq<seq<Entry>>): map<PointId, Point>
    decreases |batches|
  {
    if batches == [] then points else FlushInto(FlushAll(points, batches[..|batches| - 1]), batches[|batches| - 1])
  }

  /** The point an entry becomes when it is flushed under identifier `id`. */
  function EntryPoint(id: PointId, e: Entry): Point {
    Point(id, map[ImageSpace := e.image, TextSpace := e.text], e.payload)
  }

  /** One flush stores the i-th entry of the batch under count + i. */
  lemma {:induction false} FlushIntoStores(points: map<PointId, Point>, batch: seq<Entry>, i: nat)
    requires i < |batch|
    ensures |points| + i in FlushInto(points, batch)
    ensures FlushInto(points, batch)[|points| + i] == EntryPoint(|points| + i, batch[i])
    decreases |batch|
  {
    var n := |batch| - 1;
    if i < n {
      FlushIntoStores(points, batch[..n], i);
      assert batch[..n][i] == batch[i];
    }
  }

  /** One flush leaves every point below the old count where it was. */
  lemma {:induction false} FlushIntoKeeps(points: map<PointId, Point>, batch: seq<Entry>, id: PointId)
    requires id in points && id < |points|
    ensures id in FlushInto(points, batch) && FlushInto(points, batch)[id] == points[id]
    decreases |batch|
  {
    if batch != [] {
      FlushIntoKeeps(points, batch[..|batch| - 1], id);
    }
  }

  /** One flush into a store with ids 0 .. count - 1 leaves ids 0 .. count + |batch| - 1. */
  lemma {:induction false} FlushIntoDense(points: map<PointId, Point>, batch: seq<Entry>)
    requires Dense(points)
    ensures Dense(FlushInto(points, batch))
    ensures |FlushInto(points, batch)| == |points| + |batch|
    decreases |batch|
  {
    if batch != [] {
      var n := |batch| - 1;
      FlushIntoDense(points, batch[..n]);
      DenseExtend(FlushInto(points, batch[..n]), EntryPoint(|points| + n, batch[n]));
    }
  }

  /** Flushing into a store whose ids are 0 .. count - 1 keeps them dense, one new id per entry. */
  lemma {:induction false} FlushAllDense(points: map<PointId, Point>, batches: seq<seq<Entry>>)
    requires Dense(points)
    ensures Dense(FlushAll(points, batches))
    ensures |FlushAll(points, batches)| == |points| + |Flatten(batches)|
    decreases |batches|
  {
    if batches != [] {
      var earlier := batches[..|batches| - 1];
      FlushAllDense(points, earlier);
      FlushIntoDense(FlushAll(points, earlier), batches[|batches| - 1]);
    }
  }

  /** Flushing into a store whose ids are 0 .. count - 1 overwrites none of its points. */
  lemma {:induction false} FlushAllKeeps(points: map<PointId, Point>, batches: seq<seq<Entry>>, id: PointId)
    requires Dense(points) && id in points
    ensures id in FlushAll(points, batches) && FlushAll(points, batches)[id] == points[id]
    decreases |batches|
  {
    if batches != [] {
      var earlier := batches[..|batches| - 1];
      FlushAllKeeps(points, earlier, id);
      FlushAllDense(points, earlier);
      FlushIntoKeeps(FlushAll(points, earlier), batches[|batches| - 1], id);
    }
  }

  /**
   * Flushing into a store whose ids are 0 .. count - 1 stores the t-th
   * flushed entry under count + t, with its image vector, text vector and
   * payload.
   */
  lemma {:induction false} FlushAllStores(points: map<PointId, Point>, batches: seq<seq<Entry>>, t: nat)
    requires Dense(points) && t < |Flatten(batches)|
    ensures |points| + t in FlushAll(points, batches)
    ensures FlushAll(points, batches)[|points| + t] == EntryPoint(|points| + t, Flatten(batches)[t])
    decreases |batches|
  {
    var earlier := batches[..|batches| - 1];
    var batch := batches[|batches| - 1];
    var q := FlushAll(points, earlier);
    var result := FlushInto(q, batch);
    var id := |points| + t;
    var e := Flatten(batches)[t];
    assert FlushAll(points, batches) == result;
    assert |q| == |points| + |Flatten(earlier)| by {
      FlushAllDense(points, earlier);
    }
    if t < |Flatten(earlier)| {
      assert e == Flatten(earlier)[t] by {
        FlattenAt(batches, t);
      }
      assert id in q && q[id] == EntryPoint(id, e) by {
        FlushAllStores(points, earlier, t);
      }
      assert id in result && result[id] == q[id] by {
        FlushIntoKeeps(q, batch, id);
      }
    } else {
      var i := t - |Flatten(earlier)|;
      assert i < |batch| && e == batch[i] by {
        FlattenAt(batches, t);
      }
      assert id in result && result[id] == EntryPoint(|q| + i, e) by {
        FlushIntoStores(q, batch, i);
      }
    }
  }

  /** The t-th flushed entry lies in the last batch or before it. */
  lemma FlattenAt(batches: seq<seq<Entry>>, t: nat)
    requires batches != [] && t < |Flatten(batches)|
    ensures var earlier := Flatten(batches[..|batches| - 1]);
            && |Flatten(batches)| == |earlier| + |batches[|batches| - 1]|
            && Flatten(batches)[t] == if t < |earlier| then earlier[t] else batches[|batches| - 1][t - |earlier|]
  {
  }

  /** The point the upsert without ids builds from the i-th entry of a batch. */
  lemma PointsForEntry(count: nat, batch: seq<Entry>, i: nat)
    requires i < |batch|
    ensures |PointsFor(AutoIds(count, |batch|), Images(batch), BatchPayloads(batch), Some(Texts(batch)))| == |batch|
    ensures PointsFor(AutoIds(count, |batch|), Images(batch), BatchPayloads(batch), Some(Texts(batch)))[i] ==
            EntryPoint(count + i, batch[i])
  {
    var pts := PointsFor(AutoIds(count, |batch|), Images(batch), BatchPayloads(batch), Some(Texts(batch)));
    assert TextAttached(Some(Texts(batch)), i);
    assert pts[i].vector.Keys == {ImageSpace, TextSpace};
  }

  /** `FlushInto` is `upsert_product_embeddings` without ids, given the batch's images, payloads and texts. */
  lemma FlushIntoIsUpsert(points: map<PointId, Point>, batch: seq<Entry>)
    ensures FlushInto(points, batch) ==
            Upserted(points, PointsFor(AutoIds(|points|, |batch|), Images(batch), BatchPayloads(batch), Some(Texts(batch))))
  {
    var pts := PointsFor(AutoIds(|points|, |batch|), Images(batch), BatchPayloads(batch), Some(Texts(batch)));
    assert |pts| == |batch| && forall i :: 0 <= i < |batch| ==> pts[i] == EntryPoint(|points| + i, batch[i]) by {
      forall i | 0 <= i < |batch| ensures pts[i] == EntryPoint(|points| + i, batch[i]) {
        PointsForEntry(|points|, batch, i);
      }
    }
    FlushIntoUpserts(points, batch, pts);
  }

  /** Flushing a batch upserts, in order, the points its entries make under ids counted from the store's size. */
  lemma {:induction false} FlushIntoUpserts(points: map<PointId, Point>, batch: seq<Entry>, pts: seq<Point>)
    requires |pts| == |batch|
    requires forall i :: 0 <= i < |batch| ==> pts[i] == EntryPoint(|points| + i, batch[i])
    ensures FlushInto(points, batch) == Upserted(points, pts)
    decreases |batch|
  {
    if batch != [] {
      var n := |batch| - 1;
      assert FlushInto(points, batch[..n]) == Upserted(points, pts[..n]) by {
        FlushIntoUpserts(points, batch[..n], pts[..n]);
      }
      assert pts == pts[..n] + [pts[n]];
      UpsertedSnoc(points, pts[..n], pts[n]);
    }
  }

  /** Upserting one more point is one more map update. */
  lemma {:induction false} UpsertedSnoc(points: map<PointId, Point>, pts: seq<Point>, p: Point)
    ensures Upserted(points, pts + [p]) == Upserted(points, pts)[p.id := p]
    decreases |pts|
  {
    if pts == [] {
      assert pts + [p] == [p];
    } else {
      assert (pts + [p])[1..] == pts[1..] + [p];
      UpsertedSnoc(points[pts[0].id := pts[0]], pts[1..], p);
    }
  }

  // ---------------------------------------------------------------------
  // The loop
  // ---------------------------------------------------------------------

  /** Both encoders produce vectors of the dimensions declared in `cfg`. */
  ghost predicate EncodersFit(env: Env, cfg: CollectionConfig) {
    && (forall path :: env.encodeImage(path).Success? ==> Fits(cfg, ImageSpace, env.encodeImage(path).value))
    && (forall c :: env.encodeText(c).Success? ==> Fits(cfg, TextSpace, env.encodeText(c).value))
  }

  /** No flush ever raises. */
  ghost predicate NeverFails(env: Env) {
    forall n: nat :: env.flushError(n).None?
  }

  predicate EntryFits(cfg: CollectionConfig, e: Entry) {
    Fits(cfg, ImageSpace, e.image) && Fits(cfg, TextSpace, e.text)
  }

  /**
   * The four parallel buffers of the loop (image embeddings, text embeddings,
   * payloads, product ids), kept together with the entries they were filled from.
   */
  datatype Buffers = Buffers(imageEmbeddings: seq<Vector>, textEmbeddings: seq<Vector>, payloads: seq<Payload>,
                             productIds: seq<string>, entries: seq<Entry>)
  {
    /** Each buffer is one column of `entries`. */
    predicate Zipped() {
      && |imageEmbeddings| == |entries| && |textEmbeddings| == |entries|
      && |payloads| == |entries| && |productIds| == |entries|
      && forall k :: 0 <= k < |entries| ==>
           && imageEmbeddings[k] == entries[k].image && textEmbeddings[k] == entries[k].text
           && payloads[k] == entries[k].payload && productIds[k] == entries[k].productId
    }

    /** The four appends of one item. */
    function Add(e: Entry): (b: Buffers)
      requires Zipped()
      ensures b.Zipped() && b.entries == entries + [e]
    {
      Buffers(imageEmbeddings + [e.image], textEmbeddings + [e.text], payloads + [e.payload],
              productIds + [e.productId], entries + [e])
    }
  }

  const NoBuffers: Buffers := Buffers([], [], [], [], [])

  predicate AllFit(cfg: CollectionConfig, es: seq<Entry>) {
    forall e :: e in es ==> EntryFits(cfg, e)
  }

  predicate AtLeastFull(batches: seq<seq<Entry>>) {
    forall b :: b in batches ==> |b| >= BatchSize
  }

  predicate ExactlyFull(batches: seq<seq<Entry>>) {
    forall b :: b in batches ==> |b| == BatchSize
  }

  /**
   * Buffers reach `BATCH_SIZE` items only by a failed flush: when they hold
   * that many, the last flush attempt raised.
   */
  predicate Retried(env: Env, pending: seq<Entry>, attempts: nat) {
    |pending| >= BatchSize ==> attempts > 0 && env.flushError(attempts - 1).Some?
  }

  /** The products created, the batches flushed successfully, and the exception that ended the run, if any. */
  datatype Run = Run(products: seq<(string, ProductDoc)>, flushed: seq<seq<Entry>>, crash: Option<string>)

  /** `populate`. */
  method Populate(metadata: Option<seq<Item>>, env: Env, store: VectorStore) returns (run: Run)
    requires store.Valid()
    requires EncodersFit(env, store.Effective())
    modifies store
    ensures store.Valid()
    ensures store.points == FlushAll(old(store.points), run.flushed)
    ensures run.flushed == [] ==> store.collection == old(store.collection)
    ensures run.flushed != [] ==> store.collection == Ensured(old(store.collection))
    ensures Dense(old(store.points)) ==>
              Dense(store.points) && |store.points| == |old(store.points)| + |Flatten(run.flushed)|
    ensures metadata.None? ==> run == Run([], [], Some(MetadataMissing))
    ensures metadata.Some? ==> Follows(run, Ingest(LoadMetadata(metadata).value, env))
    ensures metadata.Some? && NeverFails(env) ==> run.crash == Ingest(LoadMetadata(metadata).value, env).crash
    ensures metadata.Some? && Ingest(LoadMetadata(metadata).value, env).crash.None? ==>
              var spec := Ingest(LoadMetadata(metadata).value, env);
              (run.flushed, run.crash) == Finish(Batching(spec.entries, env), env)
    ensures metadata.Some? && Ingest(LoadMetadata(metadata).value, env).crash.Some? ==>
              run.flushed == Batching(Ingest(LoadMetadata(metadata).value, env).entries, env).flushed
    ensures Shaped(run.flushed, env)
  {
    var loaded := LoadMetadata(metadata);
    if loaded.Failure? {
      return Run([], [], Some(loaded.error));
    }
    ghost var initial := store.points;
    run := PopulateItems(loaded.value, env, store);
    if Dense(initial) {
      FlushAllDense(initial, run.flushed);
    }
  }

  /**
   * The run agrees with the item-by-item specification: the same products,
   * the same crash if an item crashed, and the buffered entries flushed in
   * order, all of them unless a flush at the end failed.
   */
  ghost predicate Follows(run: Run, spec: Progress) {
    && run.products == spec.products
    && (spec.crash.Some? ==> run.crash == spec.crash)
    && Flatten(run.flushed) <= spec.entries
    && (run.crash.None? ==> Flatten(run.flushed) == spec.entries)
  }

  /** The loop of `populate` over the loaded items, and the flush of the remainder. */
  method PopulateItems(items: seq<Item>, env: Env, store: VectorStore) returns (run: Run)
    requires store.Valid()
    requires EncodersFit(env, store.Effective())
    modifies store
    ensures store.Valid()
    ensures store.points == FlushAll(old(store.points), run.flushed)
    ensures run.flushed == [] ==> store.collection == old(store.collection)
    ensures run.flushed != [] ==> store.collection == Ensured(old(store.collection))
    ensures Follows(run, Ingest(items, env))
    ensures NeverFails(env) ==> run.crash == Ingest(items, env).crash
    ensures Ingest(items, env).crash.None? ==>
              (run.flushed, run.crash) == Finish(Batching(Ingest(items, env).entries, env), env)
    ensures Ingest(items, env).crash.Some? ==> run.flushed == Batching(Ingest(items, env).entries, env).flushed
    ensures Shaped(run.flushed, env)
  {
    ghost var cfg := store.Effective();
    ghost var initial := store.points;
    var crash, products, buffers, flushed, attempts, i := ItemLoop(items, env, store);
    ghost var loopCrash, before := crash, flushed;
    if crash.None? {
      crash, flushed := FlushRemainder(store, env, buffers, flushed, attempts, initial, cfg);
    }
    Concluded(items, env, i, products, buffers.entries, attempts, before, flushed, loopCrash, crash);
    assert Shaped(flushed, env) by {
      BatchShapes(flushed, env);
    }
    run := Run(products, flushed, crash);
  }

  /**
   * How the loop and the final flush together follow the specification: a
   * crash inside the loop stops the items there, otherwise every item was
   * read and the remainder was flushed unless that flush failed.
   */
  lemma Concluded(items: seq<Item>, env: Env, i: nat, products: seq<(string, ProductDoc)>, pending: seq<Entry>,
                  attempts: nat, before: seq<seq<Entry>>, after: seq<seq<Entry>>, loopCrash: Option<string>,
                  crash: Option<string>)
    requires i <= |items| && (loopCrash.None? ==> i == |items|)
    requires Progress(products, Flatten(before) + pending, loopCrash) == Ingest(items[..i], env)
    requires Batched(before, pending, attempts) == Batching(Ingest(items[..i], env).entries, env)
    requires loopCrash.Some? ==> after == before && crash == loopCrash
    requires loopCrash.None? && crash.None? ==> Flatten(after) == Flatten(before) + pending
    requires loopCrash.None? && crash.Some? ==> after == before
    ensures Follows(Run(products, after, crash), Ingest(items, env))
    ensures Ingest(items, env).crash == loopCrash
    ensures Batching(Ingest(items, env).entries, env) == Batched(before, pending, attempts)
  {
    if loopCrash.Some? {
      // the exception propagates out of the loop: later items are not read
      IngestCrashSticks(items[..i], items[i..], env);
      assert items[..i] + items[i..] == items;
    } else {
      assert items[..i] == items;
    }
  }

  /** The `for` loop of `populate`, left at the end of the items or at the first crash. */
  method ItemLoop(items: seq<Item>, env: Env, store: VectorStore)
    returns (crash: Option<string>, products: seq<(string, ProductDoc)>, buffers: Buffers,
             flushed: seq<seq<Entry>>, attempts: nat, i: nat)
    requires store.Valid()
    requires EncodersFit(env, store.Effective())
    modifies store
    ensures i <= |items| && (crash.None? ==> i == |items|)
    ensures store.Valid() && store.Effective() == old(store.Effective())
    ensures store.points == FlushAll(old(store.points), flushed)
    ensures flushed == [] ==> store.collection == old(store.collection)
    ensures flushed != [] ==> store.collection == Ensured(old(store.collection))
    ensures Progress(products, Flatten(flushed) + buffers.entries, crash) == Ingest(items[..i], env)
    ensures buffers.Zipped() && AllFit(store.Effective(), buffers.entries)
    ensures AtLeastFull(flushed)
    ensures NeverFails(env) ==> |buffers.entries| < BatchSize && ExactlyFull(flushed)
    ensures Retried(env, buffers.entries, attempts)
    ensures Batched(flushed, buffers.entries, attempts) == Batching(Ingest(items[..i], env).entries, env)
  {
    ghost var cfg := store.Effective();
    ghost var initial := store.points;
    buffers := NoBuffers;
    products, flushed, attempts, crash := [], [], 0, None;

    i := 0;
    assert items[..i] == [];
    while i < |items| && crash.None?
      invariant 0 <= i <= |items|
      invariant store.Valid() && store.Effective() == cfg
      invariant store.points == FlushAll(initial, flushed)
      invariant flushed == [] ==> store.collection == old(store.collection)
      invariant flushed != [] ==> store.collection == Ensured(old(store.collection))
      invariant Progress(products, Flatten(flushed) + buffers.entries, crash) == Ingest(items[..i], env)
      invariant buffers.Zipped() && AllFit(cfg, buffers.entries)
      invariant Batched(flushed, buffers.entries, attempts) == Batching(Ingest(items[..i], env).entries, env)
    {
      // the buffers' shape follows from the batching rule
      BatchingKeeps(Ingest(items[..i], env).entries, env);
      IngestNext(items, i, env);
      BatchingNext(Ingest(items[..i], env), Process(items[i], env, |products|), env);
      crash, products, buffers, flushed, attempts :=
        Step(store, env, items[i], products, buffers, flushed, attempts, initial, cfg);
      i := i + 1;
    }
    BatchingKeeps(Ingest(items[..i], env).entries, env);
  }

  /** The flush after the loop: the remainder, if any; an exception there ends the run. */
  method FlushRemainder(store: VectorStore, env: Env, buffers: Buffers, flushed: seq<seq<Entry>>, attempts: nat,
                        ghost initial: map<PointId, Point>, ghost cfg: CollectionConfig)
    returns (crash: Option<string>, flushedNow: seq<seq<Entry>>)
    requires store.Valid() && store.Effective() == cfg
    requires store.points == FlushAll(initial, flushed)
    requires buffers.Zipped() && AllFit(cfg, buffers.entries)
    requires AtLeastFull(flushed)
    requires NeverFails(env) ==> |buffers.entries| < BatchSize && ExactlyFull(flushed)
    modifies store
    ensures store.Valid() && store.Effective() == cfg
    ensures store.points == FlushAll(initial, flushedNow)
    ensures flushedNow == flushed ==> store.collection == old(store.collection)
    ensures flushedNow != flushed ==> store.collection == Ensured(old(store.collection)) && |flushedNow| > 0
    ensures buffers.entries == [] ==> crash.None? && flushedNow == flushed
    ensures buffers.entries != [] ==>
              && crash == env.flushError(attempts)
              && (crash.None? ==> flushedNow == flushed + [buffers.entries])
    ensures crash.None? ==> Flatten(flushedNow) == Flatten(flushed) + buffers.entries
    ensures crash.Some? ==> flushedNow == flushed
    ensures Shaped(flushedNow, env)
  {
    crash, flushedNow := None, flushed;
    if |buffers.imageEmbeddings| > 0 {
      crash := env.flushError(attempts);
      if crash.None? {
        Flush(store, buffers, cfg);
        FlushAppend(initial, flushed, buffers.entries);
        LastBatch(flushed, buffers.entries, env);
        flushedNow := flushed + [buffers.entries];
      }
    }
    BatchShapes(flushedNow, env);
  }

  /** One turn of the loop: the item's outcome, and what it adds to the products and the buffers. */
  method Step(store: VectorStore, env: Env, item: Item, products: seq<(string, ProductDoc)>, buffers: Buffers,
              flushed: seq<seq<Entry>>, attempts: nat, ghost initial: map<PointId, Point>, ghost cfg: CollectionConfig)
    returns (crash: Option<string>, productsNow: seq<(string, ProductDoc)>, buffered: Buffers,
             flushedNow: seq<seq<Entry>>, attemptsNow: nat)
    requires store.Valid() && store.Effective() == cfg && EncodersFit(env, cfg)
    requires store.points == FlushAll(initial, flushed)
    requires buffers.Zipped() && AllFit(cfg, buffers.entries)
    requires AtLeastFull(flushed)
    requires NeverFails(env) ==> |buffers.entries| < BatchSize && ExactlyFull(flushed)
    requires Retried(env, buffers.entries, attempts)
    modifies store
    ensures store.Valid() && store.Effective() == cfg
    ensures store.points == FlushAll(initial, flushedNow)
    ensures flushedNow == flushed ==> store.collection == old(store.collection)
    ensures flushedNow != flushed ==> store.collection == Ensured(old(store.collection)) && |flushedNow| > 0
    ensures Retried(env, buffered.entries, attemptsNow)
    ensures Batched(flushedNow, buffered.entries, attemptsNow) ==
            BatchOutcome(Batched(flushed, buffers.entries, attempts), Process(item, env, |products|), env)
    ensures !Process(item, env, |products|).Ready? ==> buffered == buffers
    ensures Progress(productsNow, Flatten(flushedNow) + buffered.entries, crash) ==
            Advance(Progress(products, Flatten(flushed) + buffers.entries, None), Process(item, env, |products|))
    ensures buffered.Zipped() && AllFit(cfg, buffered.entries)
    ensures AtLeastFull(flushedNow)
    ensures NeverFails(env) ==> |buffered.entries| < BatchSize && ExactlyFull(flushedNow)
  {
    crash, productsNow, buffered, flushedNow, attemptsNow := None, products, buffers, flushed, attempts;
    var outcome := Process(item, env, |products|);
    match outcome {
      case Crash(e) =>
        crash := Some(e);
      case MissingImage(_) =>
      case Rejected(_) =>
      case Orphaned(pid, doc, _) =>
        productsNow := products + [(pid, doc)];
      case Ready(pid, doc, entry) =>
        ReadyFits(item, env, |products|, cfg);
        productsNow := products + [(pid, doc)];
        buffered, flushedNow, attemptsNow := Accept(store, env, entry, buffers, flushed, attempts, initial, cfg);
    }
  }

  /**
   * One embedded item: its four appends, then a flush attempt once the
   * buffers hold `BATCH_SIZE` items; a failed attempt keeps the buffers.
   */
  method Accept(store: VectorStore, env: Env, entry: Entry, buffers: Buffers, flushed: seq<seq<Entry>>,
                attempts: nat, ghost initial: map<PointId, Point>, ghost cfg: CollectionConfig)
    returns (buffered: Buffers, flushedNow: seq<seq<Entry>>, attemptsNow: nat)
    requires store.Valid() && store.Effective() == cfg
    requires store.points == FlushAll(initial, flushed)
    requires buffers.Zipped() && AllFit(cfg, buffers.entries) && EntryFits(cfg, entry)
    requires AtLeastFull(flushed)
    requires NeverFails(env) ==> |buffers.entries| < BatchSize && ExactlyFull(flushed)
    modifies store
    ensures store.Valid() && store.Effective() == cfg
    ensures store.points == FlushAll(initial, flushedNow)
    ensures flushedNow == flushed ==> store.collection == old(store.collection)
    ensures flushedNow != flushed ==> store.collection == Ensured(old(store.collection))
    ensures flushedNow != flushed ==> |flushedNow| > 0
    ensures Flatten(flushedNow) + buffered.entries == Flatten(flushed) + buffers.entries + [entry]
    ensures buffered.Zipped() && AllFit(cfg, buffered.entries)
    ensures AtLeastFull(flushedNow)
    ensures NeverFails(env) ==> |buffered.entries| < BatchSize && ExactlyFull(flushedNow)
    ensures |buffers.entries| + 1 < BatchSize ==>
              && flushedNow == flushed && buffered.entries == buffers.entries + [entry] && attemptsNow == attempts
    ensures |buffers.entries| + 1 >= BatchSize ==> attemptsNow == attempts + 1
    ensures |buffers.entries| + 1 >= BatchSize && env.flushError(attempts).None? ==>
              flushedNow == flushed + [buffers.entries + [entry]] && buffered.entries == []
    ensures |buffers.entries| + 1 >= BatchSize && env.flushError(attempts).Some? ==>
              flushedNow == flushed && buffered.entries == buffers.entries + [entry]
    ensures Retried(env, buffered.entries, attemptsNow)
    ensures Batched(flushedNow, buffered.entries, attemptsNow) == Batch(Batched(flushed, buffers.entries, attempts), entry, env)
  {
    ghost var before := Batched(flushed, buffers.entries, attempts);
    BatchStep(before, entry, env);
    buffered := buffers.Add(entry);
    buffered, flushedNow, attemptsNow := FlushIfFull(store, env, buffered, flushed, attempts, initial, cfg);
  }

  /**
   * The check after the appends: buffers holding `BATCH_SIZE` or more items
   * are flushed, counting one attempt; a successful flush clears them, a
   * failed one keeps them.
   */
  method FlushIfFull(store: VectorStore, env: Env, buffers: Buffers, flushed: seq<seq<Entry>>, attempts: nat,
                     ghost initial: map<PointId, Point>, ghost cfg: CollectionConfig)
    returns (buffered: Buffers, flushedNow: seq<seq<Entry>>, attemptsNow: nat)
    requires store.Valid() && store.Effective() == cfg
    requires store.points == FlushAll(initial, flushed)
    requires buffers.Zipped() && AllFit(cfg, buffers.entries) && buffers.entries != []
    modifies store
    ensures store.Valid() && store.Effective() == cfg
    ensures store.points == FlushAll(initial, flushedNow)
    ensures flushedNow == flushed ==> store.collection == old(store.collection)
    ensures flushedNow != flushed ==> store.collection == Ensured(old(store.collection)) && |flushedNow| > 0
    ensures buffered.Zipped() && AllFit(cfg, buffered.entries)
    ensures |buffers.entries| < BatchSize ==>
              flushedNow == flushed && buffered == buffers && attemptsNow == attempts
    ensures |buffers.entries| >= BatchSize ==> attemptsNow == attempts + 1
    ensures |buffers.entries| >= BatchSize && env.flushError(attempts).None? ==>
              flushedNow == flushed + [buffers.entries] && buffered == NoBuffers
    ensures |buffers.entries| >= BatchSize && env.flushError(attempts).Some? ==>
              flushedNow == flushed && buffered == buffers
  {
    buffered, flushedNow, attemptsNow := buffers, flushed, attempts;
    if |buffers.imageEmbeddings| >= BatchSize {
      var failure := env.flushError(attempts);
      attemptsNow := attempts + 1;
      if failure.None? {
        Flush(store, buffers, cfg);
        flushedNow := flushed + [buffers.entries];
        assert flushedNow[..|flushed|] == flushed;
        buffered := NoBuffers;
      }
    }
  }

  /** A batch flushed from the loop is full; without flush failures it holds exactly `BATCH_SIZE` items. */
  lemma FullAppend(batches: seq<seq<Entry>>, batch: seq<Entry>, env: Env)
    requires AtLeastFull(batches) && |batch| >= BatchSize
    requires NeverFails(env) ==> ExactlyFull(batches) && |batch| == BatchSize
    ensures AtLeastFull(batches + [batch])
    ensures NeverFails(env) ==> ExactlyFull(batches + [batch])
  {
  }

  /** An item that reaches the buffers has embeddings of the declared dimensions. */
  lemma ReadyFits(item: Item, env: Env, inserted: nat, cfg: CollectionConfig)
    requires EncodersFit(env, cfg)
    ensures Process(item, env, inserted).Ready? ==> EntryFits(cfg, Process(item, env, inserted).entry)
  {
  }

  /** Every batch but the last is full; without flush failures each holds exactly `BATCH_SIZE` items. */
  ghost predicate Shaped(batches: seq<seq<Entry>>, env: Env) {
    && (forall b :: b in batches ==> |b| > 0)
    && (forall k :: 0 <= k < |batches| - 1 ==> |batches[k]| >= BatchSize)
    && (NeverFails(env) ==>
          && (forall k :: 0 <= k < |batches| - 1 ==> |batches[k]| == BatchSize)
          && (forall b :: b in batches ==> |b| <= BatchSize))
  }

  lemma BatchShapes(batches: seq<seq<Entry>>, env: Env)
    requires AtLeastFull(batches) || Shaped(batches, env)
    requires NeverFails(env) ==> ExactlyFull(batches) || Shaped(batches, env)
    ensures Shaped(batches, env)
  {
    if !Shaped(batches, env) {
      forall k | 0 <= k < |batches| ensures |batches[k]| >= BatchSize {
        assert batches[k] in batches;
      }
    }
  }

  /** The remainder flushed at the end keeps the batches shaped. */
  lemma LastBatch(batches: seq<seq<Entry>>, last: seq<Entry>, env: Env)
    requires AtLeastFull(batches) && last != []
    requires NeverFails(env) ==> ExactlyFull(batches) && |last| < BatchSize
    ensures Shaped(batches + [last], env)
  {
    var all := batches + [last];
    forall k | 0 <= k < |all| - 1 ensures all[k] == batches[k] && batches[k] in batches { }
  }

  /** One more item, while nothing has crashed. */
  lemma IngestNext(items: seq<Item>, i: nat, env: Env)
    requires i < |items| && Ingest(items[..i], env).crash.None?
    ensures Ingest(items[..i + 1], env) ==
            Advance(Ingest(items[..i], env), Process(items[i], env, |Ingest(items[..i], env).products|))
  {
    assert items[..i + 1][..i] == items[..i];
  }

  lemma FlushAppend(points: map<PointId, Point>, flushed: seq<seq<Entry>>, batch: seq<Entry>)
    ensures Flatten(flushed + [batch]) == Flatten(flushed) + batch
    ensures FlushAll(points, flushed + [batch]) == FlushInto(FlushAll(points, flushed), batch)
  {
    assert (flushed + [batch])[..|flushed|] == flushed;
  }

  /** One flush: `upsert_product_embeddings` of the image, text and payload buffers, without ids. */
  method Flush(store: VectorStore, buffers: Buffers, ghost cfg: CollectionConfig)
    requires store.Valid() && store.Effective() == cfg
    requires buffers.entries != [] && buffers.Zipped() && AllFit(cfg, buffers.entries)
    modifies store
    ensures store.Valid() && store.Effective() == cfg
    ensures store.collection == Ensured(old(store.collection))
    ensures store.points == FlushInto(old(store.points), buffers.entries)
  {
    var images, texts, payloads := buffers.imageEmbeddings, buffers.textEmbeddings, buffers.payloads;
    assert images == Images(buffers.entries) && texts == Texts(buffers.entries) && payloads == BatchPayloads(buffers.entries);
    assert BatchFits(store.Effective(), images, Some(texts), Written(|images|, None, Some(payloads))) by {
      forall k | 0 <= k < |images| ensures EntryFits(cfg, buffers.entries[k]) {
        assert buffers.entries[k] in buffers.entries;
      }
    }
    store.UpsertProductEmbeddings(images, Some(payloads), Some(texts), None);
    FlushIntoIsUpsert(old(store.points), buffers.entries);
  }
}
