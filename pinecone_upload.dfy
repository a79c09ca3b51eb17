/** The Pinecone uploader: turns the dataset's nodes into (id, text, metadata)
    items, embeds them batch by batch and upserts one vector per embedded item.

    The OpenAI embedding client is an oracle `embed`; the upserts the uploader
    sends to the index are returned, in order, as calls. */
module PineconeUpload {
  import opened PyValues
  import opened Batching

  const BatchSize: nat := 32
  const DescriptionLimit: nat := 1000

  /** The metadata stored with each vector; absent node keys are None (JNull). */
  datatype Metadata = Metadata(id: Json, nodeType: Json, name: Json, city: Json, tags: Json)

  /** One entry of items_to_upload: (node["id"], semantic_text, metadata). */
  datatype Item = Item(id: Json, text: string, metadata: Metadata)

  datatype Vector = Vector(id: Json, values: Embedding, metadata: Metadata)

  /** A request the uploader sends: an embedding request for a batch's texts, or an upsert. */
  datatype UploadCall = EmbedBatch(texts: seq<string>) | Upsert(vectors: seq<Vector>)

  // ---------------------------------------------------------------------------
  // _ensure_index_exists

  datatype IndexSpec = IndexSpec(name: string, dimension: nat, metric: string, cloud: string, region: string)

  /** What _ensure_index_exists does: nothing, a successful create_index, or a failed
      one (logged and raised again, so construction of the uploader fails). */
  datatype IndexSetup = AlreadyExists | Created(spec: IndexSpec) | CreateFailed(spec: IndexSpec)

  function ServerlessSpec(indexName: string, vectorDim: nat): IndexSpec {
    IndexSpec(indexName, vectorDim, "cosine", "aws", "us-east-1")
  }

  function EnsureIndexExists(existing: seq<string>, indexName: string, vectorDim: nat,
                             create: IndexSpec -> Outcome<()>): (r: IndexSetup)
    ensures r.AlreadyExists? <==> indexName in existing
    ensures !r.AlreadyExists? ==>
      r.spec.name == indexName && r.spec.dimension == vectorDim && r.spec.metric == "cosine"
    ensures indexName !in existing ==> (r.CreateFailed? <==> create(ServerlessSpec(indexName, vectorDim)).Err?)
  {
    if indexName in existing then AlreadyExists
    else
      var spec := ServerlessSpec(indexName, vectorDim);
      if create(spec).Ok? then Created(spec) else CreateFailed(spec)
  }

  // ---------------------------------------------------------------------------
  // _prepare_data

  /** Choosing the text of a node does not raise: the value `or` picks is a string. */
  predicate TextFieldsUsable(node: JsonObject) {
    var st := Get(node, "semantic_text");
    if Truthy(st) then st.JStr?
    else var d := Get(node, "description"); !Truthy(d) || d.JStr?
  }

  /** The string a JSON value holds. Values of other kinds make the uploader raise
      (see TextFieldsUsable), so the "" here is never observed on a run. */
  function Str(v: Json): string {
    if v.JStr? then v.s else ""
  }

  /** `node.get("semantic_text") or (node.get("description") or "")[:1000]`. */
  function ChosenText(node: JsonObject): (t: string)
    ensures Truthy(Get(node, "semantic_text")) && Get(node, "semantic_text").JStr? ==>
      t == Get(node, "semantic_text").s
    ensures !Truthy(Get(node, "semantic_text")) ==>
      |t| <= DescriptionLimit
      && (Truthy(Get(node, "description")) && Get(node, "description").JStr? ==>
            t == Get(node, "description").s[..Min(DescriptionLimit, |Get(node, "description").s|)])
      && (!Truthy(Get(node, "description")) ==> t == "")
  {
    var st := Get(node, "semantic_text");
    if Truthy(st) then Str(st)
    else
      var d := Get(node, "description");
      Take(if Truthy(d) then Str(d) else "", DescriptionLimit)
  }

  /** The node is uploaded: its chosen text is not blank. */
  predicate Kept(node: JsonObject) {
    !IsBlank(ChosenText(node))
  }

  /** _prepare_data does not raise on this node: the text can be chosen and, when the
      node is kept, `node["id"]` exists. */
  predicate Preparable(node: JsonObject) {
    TextFieldsUsable(node) && (Kept(node) ==> "id" in node)
  }

  function MetadataOf(node: JsonObject): (m: Metadata)
    ensures m.id == Get(node, "id") && m.nodeType == Get(node, "type") && m.name == Get(node, "name")
    ensures "city" in node ==> m.city == node["city"]
    ensures "city" !in node && "region" in node ==> m.city == node["region"]
    ensures "city" !in node && "region" !in node ==> m.city == JStr("")
    ensures m.tags == if "tags" in node then node["tags"] else JArr([])
  {
    Metadata(Get(node, "id"), Get(node, "type"), Get(node, "name"),
             GetOr(node, "city", GetOr(node, "region", JStr(""))), GetOr(node, "tags", JArr([])))
  }

  /** The item of a kept node; such a node has an id when the run does not raise,
      and then the item's id is `node["id"]`. */
  function ItemOf(node: JsonObject): Item {
    Item(Get(node, "id"), ChosenText(node), MetadataOf(node))
  }

  predicate AllPreparable(nodes: seq<JsonObject>) {
    forall i :: 0 <= i < |nodes| ==> Preparable(nodes[i])
  }

  /** What a node contributes to items_to_upload: its item if it is kept, else nothing. */
  function ItemsOf(node: JsonObject): seq<Item> {
    if Kept(node) then [ItemOf(node)] else []
  }

  /** The items of the kept nodes, in node order. */
  function Prepared(nodes: seq<JsonObject>): seq<Item> {
    FlatMap(nodes, ItemsOf)
  }

  /** _prepare_data: one item per node whose chosen text is not blank. */
  method PrepareData(file: Outcome<seq<JsonObject>>) returns (items: seq<Item>)
    requires AllPreparable(Loaded(file))
    ensures items == Prepared(Loaded(file))
    ensures file.Err? ==> items == []
  {
    if file.Err? {
      return [];
    }
    var nodes := file.value;
    items := [];
    for i := 0 to |nodes|
      invariant items == FlatMap(nodes[..i], ItemsOf)
    {
      assert nodes[..i + 1][..i] == nodes[..i];
      var node := nodes[i];
      var semanticText := ChosenText(node);
      if IsBlank(semanticText) {
        continue;
      }
      var metadata := MetadataOf(node);
      items := items + [Item(node["id"], semanticText, metadata)];
    }
    assert nodes[..|nodes|] == nodes;
  }

  /** Every item comes from a kept node, every kept node gives its item, and there are
      no more items than nodes. */
  lemma PreparedItems(nodes: seq<JsonObject>)
    ensures |Prepared(nodes)| <= |nodes|
    ensures forall it :: it in Prepared(nodes) <==>
      exists j :: 0 <= j < |nodes| && Kept(nodes[j]) && it == ItemOf(nodes[j])
  {
    FlatMapAtMostOne(nodes, ItemsOf);
    forall it
      ensures it in Prepared(nodes) <==>
        exists j :: 0 <= j < |nodes| && Kept(nodes[j]) && it == ItemOf(nodes[j])
    {
      FlatMapMember(nodes, ItemsOf, it);
    }
  }

  /** No item has a blank text. */
  lemma PreparedTextsNotBlank(nodes: seq<JsonObject>)
    ensures forall k :: 0 <= k < |Prepared(nodes)| ==> !IsBlank(Prepared(nodes)[k].text)
  {
    forall k | 0 <= k < |Prepared(nodes)| ensures !IsBlank(Prepared(nodes)[k].text) {
      PreparedItems(nodes);
      assert Prepared(nodes)[k] in Prepared(nodes);
    }
  }

  /** Items keep node order: the items of a + b are a's, then b's. */
  lemma PreparedAppend(a: seq<JsonObject>, b: seq<JsonObject>)
    ensures Prepared(a + b) == Prepared(a) + Prepared(b)
  {
    FlatMapAppend(a, b, ItemsOf);
  }

  /** When every node is kept, there is exactly one item per node, in node order. */
  lemma AllKeptAllPrepared(nodes: seq<JsonObject>)
    requires forall j :: 0 <= j < |nodes| ==> Kept(nodes[j])
    ensures |Prepared(nodes)| == |nodes|
    ensures forall j :: 0 <= j < |nodes| ==> Prepared(nodes)[j] == ItemOf(nodes[j])
  {
    FlatMapExactlyOne(nodes, ItemsOf);
  }

  /** The item of a node that does not make the run raise has the node's id. */
  lemma ItemId(node: JsonObject)
    requires Preparable(node) && Kept(node)
    ensures ItemOf(node).id == node["id"]
  {
  }

  /** A whitespace-only semantic_text is skipped, even when a description exists:
      `or` keeps the non-empty string and never falls back to the description. */
  lemma WhitespaceSemanticTextSkipped(node: JsonObject)
    requires "semantic_text" in node && node["semantic_text"].JStr?
    requires node["semantic_text"].s != "" && IsBlank(node["semantic_text"].s)
    ensures TextFieldsUsable(node) && !Kept(node)
  {
  }

  // ---------------------------------------------------------------------------
  // run

  /** chunked: the slices items[i:i+n] for i in range(0, len(items), n). */
  method Chunked<T>(items: seq<T>, n: nat) returns (batches: seq<seq<T>>)
    requires n > 0
    ensures batches == Chunks(items, n)
    ensures Flatten(batches) == items
    ensures forall k :: 0 <= k < |batches| ==> 0 < |batches[k]| <= n
    ensures forall k :: 0 <= k < |batches| - 1 ==> |batches[k]| == n
  {
    batches := [];
    var i := 0;
    assert items[Min(i, |items|)..] == items;
    while i < |items|
      invariant 0 <= i
      invariant batches + Chunks(items[Min(i, |items|)..], n) == Chunks(items, n)
      decreases |items| - i
    {
      ChunksAdvance(items, i, n, batches);
      batches := batches + [items[i..Min(i + n, |items|)]];
      i := i + n;
    }
    assert items[Min(i, |items|)..] == [];
    ChunksFlatten(items, n);
    ChunksSizes(items, n);
  }

  function Ids(batch: seq<Item>): seq<Json> {
    seq(|batch|, k requires 0 <= k < |batch| => batch[k].id)
  }

  function Texts(batch: seq<Item>): seq<string> {
    seq(|batch|, k requires 0 <= k < |batch| => batch[k].text)
  }

  function Metadatas(batch: seq<Item>): seq<Metadata> {
    seq(|batch|, k requires 0 <= k < |batch| => batch[k].metadata)
  }

  /** _get_embeddings: the service's vectors, or [] on an API error. */
  function GetEmbeddings(texts: seq<string>, embed: seq<string> -> Outcome<seq<Embedding>>): (r: seq<Embedding>)
    ensures embed(texts).Ok? ==> r == embed(texts).value
    ensures embed(texts).Err? ==> r == []
  {
    match embed(texts)
    case Ok(vectors) => vectors
    case Err => []
  }

  /** `zip(ids, embeddings, metadatas)`: as long as the shortest of the three. */
  function Zip(ids: seq<Json>, embeddings: seq<Embedding>, metadatas: seq<Metadata>): (vs: seq<Vector>)
    ensures |vs| == Min(Min(|ids|, |embeddings|), |metadatas|)
    ensures forall k :: 0 <= k < |vs| ==> vs[k] == Vector(ids[k], embeddings[k], metadatas[k])
  {
    seq(Min(Min(|ids|, |embeddings|), |metadatas|),
        k requires 0 <= k < Min(Min(|ids|, |embeddings|), |metadatas|) => Vector(ids[k], embeddings[k], metadatas[k]))
  }

  /** The calls one batch produces: an embedding request, then an upsert unless the
      embeddings came back empty. */
  function BatchCalls(batch: seq<Item>, embed: seq<string> -> Outcome<seq<Embedding>>): seq<UploadCall> {
    var embeddings := GetEmbeddings(Texts(batch), embed);
    [EmbedBatch(Texts(batch))]
    + if embeddings == [] then [] else [Upsert(Zip(Ids(batch), embeddings, Metadatas(batch)))]
  }

  function CallsFor(embed: seq<string> -> Outcome<seq<Embedding>>): seq<Item> -> seq<UploadCall> {
    batch => BatchCalls(batch, embed)
  }

  /** The calls for a sequence of batches, batch after batch. */
  function UploadCalls(batches: seq<seq<Item>>, embed: seq<string> -> Outcome<seq<Embedding>>): seq<UploadCall> {
    FlatMap(batches, CallsFor(embed))
  }

  lemma UploadCallsSnoc(batches: seq<seq<Item>>, embed: seq<string> -> Outcome<seq<Embedding>>)
    requires batches != []
    ensures UploadCalls(batches, embed)
      == UploadCalls(batches[..|batches| - 1], embed) + BatchCalls(batches[|batches| - 1], embed)
  {
  }

  /** The batch loop of run: embed each batch, upsert what was embedded, go on with
      the next batch either way. */
  method UploadBatches(batches: seq<seq<Item>>, embed: seq<string> -> Outcome<seq<Embedding>>)
    returns (calls: seq<UploadCall>)
    ensures calls == UploadCalls(batches, embed)
  {
    calls := [];
    for b := 0 to |batches|
      invariant calls == UploadCalls(batches[..b], embed)
    {
      var batch := batches[b];
      UploadCallsSnoc(batches[..b + 1], embed);
      assert batches[..b + 1][..b] == batches[..b];
      ghost var before := calls;
      var ids := Ids(batch);
      var texts := Texts(batch);
      var metadatas := Metadatas(batch);
      var embeddings := GetEmbeddings(texts, embed);
      calls := calls + [EmbedBatch(texts)];
      if |embeddings| == 0 {
        assert calls == before + BatchCalls(batch, embed);
        continue;
      }
      var vectorsToUpsert := Zip(ids, embeddings, metadatas);
      calls := calls + [Upsert(vectorsToUpsert)];
      assert calls == before + BatchCalls(batch, embed);
    }
    assert batches[..|batches|] == batches;
  }

  /** run: prepare, batch by 32, embed each batch, upsert what was embedded. */
  method Run(file: Outcome<seq<JsonObject>>, embed: seq<string> -> Outcome<seq<Embedding>>)
    returns (calls: seq<UploadCall>)
    requires AllPreparable(Loaded(file))
    ensures calls == UploadCalls(Chunks(Prepared(Loaded(file)), BatchSize), embed)
    ensures Prepared(Loaded(file)) == [] ==> calls == []
    ensures file.Err? ==> calls == []
  {
    var items := PrepareData(file);
    if |items| == 0 {
      return [];
    }
    var batches := Chunked(items, BatchSize);
    calls := UploadBatches(batches, embed);
  }

  // ---------------------------------------------------------------------------
  // Properties of the upload

  function EmbedRequestOf(c: UploadCall): seq<seq<string>> {
    if c.EmbedBatch? then [c.texts] else []
  }

  function UpsertOf(c: UploadCall): seq<seq<Vector>> {
    if c.Upsert? then [c.vectors] else []
  }

  /** The texts of the embedding requests among the calls, in order. */
  function Embedded(calls: seq<UploadCall>): seq<seq<string>> {
    FlatMap(calls, EmbedRequestOf)
  }

  /** The vectors of the upserts among the calls, in order. */
  function Upserted(calls: seq<UploadCall>): seq<seq<Vector>> {
    FlatMap(calls, UpsertOf)
  }

  /** A batch asks for the embeddings of its texts once. */
  lemma BatchCallsEmbedded(batch: seq<Item>, embed: seq<string> -> Outcome<seq<Embedding>>)
    ensures Embedded(BatchCalls(batch, embed)) == [Texts(batch)]
  {
    var first := EmbedBatch(Texts(batch));
    var rest := BatchCalls(batch, embed)[1..];
    assert BatchCalls(batch, embed) == [first] + rest;
    FlatMapAppend([first], rest, EmbedRequestOf);
    FlatMapSingle(first, EmbedRequestOf);
    if rest != [] {
      FlatMapSingle(rest[0], EmbedRequestOf);
      assert rest == [rest[0]];
    }
  }

  /** The texts of each batch. */
  function BatchTexts(batches: seq<seq<Item>>): seq<seq<string>> {
    seq(|batches|, k requires 0 <= k < |batches| => Texts(batches[k]))
  }

  lemma BatchTextsSnoc(batches: seq<seq<Item>>)
    requires batches != []
    ensures BatchTexts(batches) == BatchTexts(batches[..|batches| - 1]) + [Texts(batches[|batches| - 1])]
  {
    var init := batches[..|batches| - 1];
    forall k | 0 <= k < |init| ensures BatchTexts(batches)[k] == BatchTexts(init)[k] {
      assert init[k] == batches[k];
    }
  }

  /** Every batch is sent for embedding, in batch order, whatever happened to the
      batches before it: a failed embedding skips only its own batch. */
  lemma {:induction false} EveryBatchEmbedded(batches: seq<seq<Item>>, embed: seq<string> -> Outcome<seq<Embedding>>)
    ensures Embedded(UploadCalls(batches, embed)) == BatchTexts(batches)
    decreases |batches|
  {
    if batches != [] {
      var init, last := batches[..|batches| - 1], batches[|batches| - 1];
      var done, now := UploadCalls(init, embed), BatchCalls(last, embed);
      EveryBatchEmbedded(init, embed);
      UploadCallsSnoc(batches, embed);
      FlatMapAppend(done, now, EmbedRequestOf);
      BatchCallsEmbedded(last, embed);
      BatchTextsSnoc(batches);
    }
  }

  /** The embedding service answers every batch with one vector per text. */
  predicate EmbedsEveryBatch(batches: seq<seq<Item>>, embed: seq<string> -> Outcome<seq<Embedding>>) {
    forall k :: 0 <= k < |batches| ==>
      embed(Texts(batches[k])).Ok? && |embed(Texts(batches[k])).value| == |batches[k]|
  }

  /** A batch whose embeddings came back, one per text, is upserted as one vector per item. */
  lemma BatchCallsUpserted(batch: seq<Item>, embed: seq<string> -> Outcome<seq<Embedding>>)
    requires embed(Texts(batch)).Ok? && |embed(Texts(batch)).value| == |batch|
    ensures Flatten(Upserted(BatchCalls(batch, embed))) == Zip(Ids(batch), embed(Texts(batch)).value, Metadatas(batch))
  {
    var first := EmbedBatch(Texts(batch));
    var vs := Zip(Ids(batch), embed(Texts(batch)).value, Metadatas(batch));
    var rest := BatchCalls(batch, embed)[1..];
    assert BatchCalls(batch, embed) == [first] + rest;
    FlatMapAppend([first], rest, UpsertOf);
    FlatMapSingle(first, UpsertOf);
    if batch == [] {
      assert rest == [];
      assert vs == [];
    } else {
      assert rest == [Upsert(vs)];
      FlatMapSingle(Upsert(vs), UpsertOf);
      assert [vs][1..] == [];
      assert Flatten([vs]) == vs + Flatten([vs][1..]);
    }
  }

  /** Vector k carries item k's id and metadata, for every k. */
  predicate Carries(vs: seq<Vector>, items: seq<Item>) {
    |vs| == |items| && forall k :: 0 <= k < |vs| ==> vs[k].id == items[k].id && vs[k].metadata == items[k].metadata
  }

  lemma CarriesAppend(vs: seq<Vector>, items: seq<Item>, ws: seq<Vector>, more: seq<Item>)
    requires Carries(vs, items) && Carries(ws, more)
    ensures Carries(vs + ws, items + more)
  {
    forall k | 0 <= k < |vs + ws|
      ensures (vs + ws)[k].id == (items + more)[k].id && (vs + ws)[k].metadata == (items + more)[k].metadata
    {
      if k >= |vs| {
        assert (vs + ws)[k] == ws[k - |vs|];
        assert (items + more)[k] == more[k - |vs|];
      }
    }
  }

  /** One more batch whose embeddings came back, one per text, extends the
      correspondence between upserted vectors and items by that batch. */
  lemma UpsertedStep(init: seq<seq<Item>>, last: seq<Item>, embed: seq<string> -> Outcome<seq<Embedding>>)
    requires Carries(Flatten(Upserted(UploadCalls(init, embed))), Flatten(init))
    requires embed(Texts(last)).Ok? && |embed(Texts(last)).value| == |last|
    ensures Carries(Flatten(Upserted(UploadCalls(init + [last], embed))), Flatten(init + [last]))
  {
    var batches := init + [last];
    assert batches[..|batches| - 1] == init;
    var done := Upserted(UploadCalls(init, embed));
    var now := Upserted(BatchCalls(last, embed));
    UploadCallsSnoc(batches, embed);
    FlatMapAppend(UploadCalls(init, embed), BatchCalls(last, embed), UpsertOf);
    assert Upserted(UploadCalls(batches, embed)) == done + now;
    BatchCallsUpserted(last, embed);
    FlattenAppend(done, now);
    FlattenSnoc(init, last);
    CarriesAppend(Flatten(done), Flatten(init), Flatten(now), last);
  }

  /** When every embedding request succeeds with one vector per text, the upserted
      vectors are the items in order: vector k carries item k's id and metadata. */
  lemma {:induction false} EveryItemUpserted(batches: seq<seq<Item>>, embed: seq<string> -> Outcome<seq<Embedding>>)
    requires EmbedsEveryBatch(batches, embed)
    ensures Carries(Flatten(Upserted(UploadCalls(batches, embed))), Flatten(batches))
    decreases |batches|
  {
    if batches != [] {
      var init, last := batches[..|batches| - 1], batches[|batches| - 1];
      assert EmbedsEveryBatch(init, embed) by {
        forall k | 0 <= k < |init| ensures init[k] == batches[k] { }
      }
      EveryItemUpserted(init, embed);
      UpsertedStep(init, last, embed);
      assert batches == init + [last];
    }
  }

  /** Putting it together for a run: when every embedding request succeeds, the
      upserted vectors are the prepared items, one each, in node order. */
  lemma RunUpsertsEveryItem(items: seq<Item>, embed: seq<string> -> Outcome<seq<Embedding>>)
    requires EmbedsEveryBatch(Chunks(items, BatchSize), embed)
    ensures Carries(Flatten(Upserted(UploadCalls(Chunks(items, BatchSize), embed))), items)
  {
    EveryItemUpserted(Chunks(items, BatchSize), embed);
    ChunksFlatten(items, BatchSize);
  }
}
