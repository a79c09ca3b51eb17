# Hybrid travel assistant: retrieval pipeline and data loaders

This project models the deterministic core of a travel assistant for Vietnam.
The assistant answers questions by combining a vector index (Pinecone) with a
graph database (Neo4j) and a chat model (OpenAI). There are three parts:

- **HybridChat** (`hybrid_chat.dfy`) covers `HybridRAG` in `hybrid_chat.py`. It
  embeds the question, asks the vector index for similar entities, and expands
  their ids into graph facts. It then renders both into a two-message chat
  prompt and asks the chat model for the answer. If the chat call fails, the
  answer is a fixed apology.
- **PineconeUpload** (`pinecone_upload.dfy`) covers `PineconeUploader` in
  `pinecone_upload.py`. It turns dataset nodes into (id, text, metadata)
  items, skipping nodes whose text is blank. It cuts the items into batches of
  32, embeds each batch and upserts one vector per embedded item. A batch whose
  embedding fails is skipped.
- **Neo4jLoad** (`load_to_neo4j.dfy`) covers `Neo4jLoader` in
  `load_to_neo4j.py`. It applies the uniqueness constraint first. It then
  upserts the nodes in batches of 500, collects every well-formed connection
  into relationship records, and creates those in batches of 500. Each batch
  is one write transaction. A transaction the database rejects with a Neo4j
  error is logged, and the run goes on with the next one.

Shared pieces:

- `py_values.dfy` (PyValues) holds JSON values and the Python semantics the
  scripts rely on: truthiness, `dict.get`, `str.strip` and slicing.
- `batching.dfy` (Batching) holds `Chunks`, the batches that
  `range(0, len, n)` slicing loops produce. It also holds `FlatMap`, the list
  that an "append what each element yields" loop builds.
- `text.dfy` (Text) holds bullet rendering and line counting.

Every external service is an oracle: a function from the request to `Ok(value)`
or `Err`. An operation that talks to a service also returns the requests it
issued, in order. That makes statements such as "no index query is made
without an embedding" and "every batch is written, whatever happened to the
earlier ones" expressible. Each loop in the source is a method with its loop.
The method is proved equal to a specification function (`Prepared`,
`UploadCalls`, `Relationships`, `Executed(...)`, `EnhancedPrompt`), and the
lemmas state the properties of those functions.

The three classes never update their own fields after construction. So there
are no Dafny classes: effects are the returned request or transaction logs.

## Model

| member | source | states |
|---|---|---|
| HybridChat.EmbedText | hybrid_chat.py:62-69 | exactly one embedding request for `[text]`. On success, the first vector of the answer. On an API error, the empty vector, and no exception. |
| HybridChat.PineconeQuery | hybrid_chat.py:71-84 | the query text is embedded first. With an empty embedding, the result is `[]` and no index query is issued. Otherwise there is one index query with that vector and `top_k`. Its matches are returned unchanged on success, and `[]` on a Pinecone error. |
| HybridChat.FetchGraphContext | hybrid_chat.py:86-110 | no ids means `[]` and no graph query at all. Otherwise there is one query parameterised by the whole id list. Its rows are returned unchanged, or `[]` on a Neo4j error. If the service respects the 20-row limit and the 300-character descriptions (`WithinCap`), so does the result. |
| HybridChat.MatchIds | hybrid_chat.py:150 | one id per match, in match order |
| HybridChat.BuildEnhancedPrompt | hybrid_chat.py:112-145 | the loop that grows the context string builds exactly `EnhancedPrompt`. That is two messages, the fixed system prompt first and the user message second. |
| HybridChat.UserContentFrame | hybrid_chat.py:124-145 | the user message starts with `"## CONTEXT\n\n"` and ends with `"\n\n## QUERY\n\n"` followed by the query |
| HybridChat.MissingMetadataRendersNA | hybrid_chat.py:128-129 | a match without metadata renders name, type and city as `N/A` |
| HybridChat.MissingTargetNameRendersNA | hybrid_chat.py:136 | a fact without a target name renders it as `N/A` |
| HybridChat.MatchBulletIsOneLine | hybrid_chat.py:129 | a match whose shown fields have no line break renders as exactly one line |
| HybridChat.FactBulletIsOneLine | hybrid_chat.py:136 | a fact whose shown fields have no line break renders as exactly one line |
| HybridChat.MatchesSectionLines | hybrid_chat.py:125-131 | the matches section is a heading plus one line per match, or the single "No semantic matches found." line when there are no matches |
| HybridChat.NoFactsLines | hybrid_chat.py:137-138 | the "no connections" fallback is a blank line followed by one text line |
| HybridChat.FixedFactLines | hybrid_chat.py:133-138 | the facts heading and the "no connections" fallback each take two lines, the first of them blank |
| HybridChat.FactsSectionLines | hybrid_chat.py:133-138 | the facts section is a blank line, a heading and one line per fact, or the blank line plus "No factual connections found." when there are no facts |
| HybridChat.ContextLineCount | hybrid_chat.py:124-138 | the CONTEXT block has two header lines, then one line per match and one per fact, plus the fixed heading or fallback lines |
| HybridChat.HeaderLines | hybrid_chat.py:124 | the CONTEXT header is two lines |
| HybridChat.GetAnswer | hybrid_chat.py:147-164 | issues exactly the calls `AnswerCalls` lists. The answer is the chat model's reply to the prompt built from three matches and their graph facts, or the fixed apology on a chat API error. |
| HybridChat.AnswerCallsShape | hybrid_chat.py:149-155 | the exact call list in each case. Without an embedding: the embedding request, then the chat call. With an embedding but no matches: the embedding request, one index query for three matches with that vector, then the chat call. With matches: the same, plus one graph query for exactly the match ids in match order, before the chat call. |
| Text.AppendBullets | hybrid_chat.py:127-136 | `for x in xs: text += bullet(x)` appends the bullets of all items in input order (`Render`) |
| Text.RenderInOrder | hybrid_chat.py:127-136 | item i's bullet follows the bullets of the earlier items and precedes those of the later ones |
| Text.RenderAppend | hybrid_chat.py:127-136 | rendering a concatenation renders each part in turn |
| Text.RenderLineCount | hybrid_chat.py:127-136 | one-line bullets give one line per item |
| PineconeUpload.EnsureIndexExists | pinecone_upload.py:41-60 | `create_index` is called exactly when the name is not among the existing indexes. It is called with that name, the configured dimension and the cosine metric. Setup fails exactly when the create call fails. |
| PineconeUpload.ChosenText | pinecone_upload.py:82 | `semantic_text` when it is truthy. Otherwise exactly the first 1000 characters of a truthy description (all of it when shorter). Otherwise `""`. |
| PineconeUpload.MetadataOf | pinecone_upload.py:86-92 | id, type and name as `dict.get` (None when absent). City from `city`, else `region`, else `""`. Tags from `tags`, else `[]`. |
| PineconeUpload.PrepareData | pinecone_upload.py:71-94 | the loop returns exactly `Prepared`, the items of the kept nodes in node order. It returns `[]` when the file cannot be read. |
| PineconeUpload.PreparedItems | pinecone_upload.py:80-94 | no more items than nodes. An item is present exactly when some node with non-blank text produces it. |
| PineconeUpload.PreparedTextsNotBlank | pinecone_upload.py:83-84 | no prepared item has a blank or whitespace-only text |
| PineconeUpload.PreparedAppend | pinecone_upload.py:81-93 | items keep node order: the items of `a + b` are those of `a`, then those of `b` |
| PineconeUpload.AllKeptAllPrepared | pinecone_upload.py:81-93 | when no text is blank, there is exactly one item per node, item j coming from node j |
| PineconeUpload.ItemId | pinecone_upload.py:93 | the item's id is `node["id"]` |
| PineconeUpload.WhitespaceSemanticTextSkipped | pinecone_upload.py:82-84 | a whitespace-only `semantic_text` is skipped even when the node has a description |
| PineconeUpload.Chunked | pinecone_upload.py:105-107 | the index-stepping loop yields `Chunks(items, n)`. The batches concatenate back to the items. None is empty or longer than n, and only the last may be shorter. |
| Batching.ChunksFlatten | pinecone_upload.py:105-107 | concatenating the batches gives back the input |
| Batching.ChunksSizes | pinecone_upload.py:105-107 | every batch has between 1 and n elements, and all but the last have exactly n |
| PineconeUpload.GetEmbeddings | pinecone_upload.py:62-69 | the service's vectors on success, `[]` on an API error |
| PineconeUpload.Zip | pinecone_upload.py:119-122 | as long as the shortest of ids, embeddings and metadata. Vector k pairs id k, embedding k and metadata k. |
| PineconeUpload.UploadBatches | pinecone_upload.py:109-127 | the batch loop issues exactly `UploadCalls`. Each batch makes an embedding request and then an upsert, unless its embeddings came back empty. |
| PineconeUpload.Run | pinecone_upload.py:96-129 | prepare, cut into batches of 32, upload. There are no calls at all when no item survives preparation or the file cannot be read. |
| PineconeUpload.EveryBatchEmbedded | pinecone_upload.py:109-117 | every batch's texts are sent for embedding, in batch order, whatever happened to earlier batches |
| PineconeUpload.BatchCallsEmbedded | pinecone_upload.py:111-114 | a batch requests the embeddings of its texts exactly once |
| PineconeUpload.BatchCallsUpserted | pinecone_upload.py:114-125 | a batch embedded one vector per text is upserted as the zip of its ids, vectors and metadata |
| PineconeUpload.EveryItemUpserted | pinecone_upload.py:109-125 | when every embedding request succeeds with one vector per text, the upserted vectors correspond to the batched items, in order. Vector k carries item k's id and metadata. |
| PineconeUpload.RunUpsertsEveryItem | pinecone_upload.py:105-125 | the same for a whole run: the upserted vectors are the prepared items, one each, in order |
| Neo4jLoad.RunWriteTransaction | load_to_neo4j.py:48-54 | the transaction runs once. It is recorded as committed exactly when the database accepts it, and a Neo4j error is swallowed. |
| Neo4jLoad.ExecutedEach | load_to_neo4j.py:48-54 | running transactions in turn runs every one of them, in order, whatever the database answered to the earlier ones |
| Neo4jLoad.Payload | load_to_neo4j.py:75-81 | id is `node["id"]`. Type is `node["type"]` or `"Unknown"`. The props are the node's map with exactly the `connections` key removed and every other value unchanged. |
| Neo4jLoad.BatchUpsertNodes | load_to_neo4j.py:62-82 | for nodes that all have an `id` (the only thing the loop reads that can raise), the loop writes exactly one upsert transaction per slice `nodes[i:i+500]`, in order (`Executed(db, UpsertTransactions(nodes))`) |
| Neo4jLoad.UpsertsFlatten | load_to_neo4j.py:73-82 | one upsert per batch, carrying that batch's payloads. Together they carry the payloads of all nodes in order. |
| Neo4jLoad.UpsertBatchesCoverNodes | load_to_neo4j.py:73-82 | every upsert batch has between 1 and 500 entries, and together they cover every node exactly once, in order |
| Neo4jLoad.ConnectionValuesUsable | load_to_neo4j.py:90-95 | on a node the loop does not raise on, every value `for conn in node.get("connections", [])` visits passes the `in` tests without raising, and passes both only when it is an object. A one-character string never passes them. |
| Neo4jLoad.UsableTest | load_to_neo4j.py:91 | on such a value, `"target" in conn and "relation" in conn` holds exactly when the value is an object with both keys, the only values that yield a record |
| Neo4jLoad.StringConnectionsRecordNothing | load_to_neo4j.py:90-91 | a string in place of the connection list is walked character by character and contributes no record |
| Neo4jLoad.MixedConnectionsExample | load_to_neo4j.py:88-96 | a node whose connections are `["x", {"target": t, "relation": r}]` is accepted, and yields exactly the one record for the object |
| Neo4jLoad.CollectRelationships | load_to_neo4j.py:87-96 | on every input the loops do not raise on (`AllLoadable`), they build exactly `Relationships(nodes)`. Python's `in` is modelled per kind of value: a key test on an object, a substring test on a string, an element test on a list. |
| Neo4jLoad.ConnectionRelationshipsMembers | load_to_neo4j.py:90-96 | a record exists exactly when some connection is an object naming both `target` and `relation`. Others are dropped, and there is at most one record per connection. |
| Neo4jLoad.AllConnectionsRecorded | load_to_neo4j.py:90-96 | when every connection is an object naming a target and a relation, there is one record per connection, in connection order |
| Neo4jLoad.ConnectionRelationshipsAppend | load_to_neo4j.py:90-96 | records follow connection order |
| Neo4jLoad.RelationshipsAppend | load_to_neo4j.py:88-96 | records follow node order |
| Neo4jLoad.RelationshipsMembers | load_to_neo4j.py:88-96 | for nodes that all have an `id`, a record exists exactly when some connection of some node is an object naming a target and a relation. Its source is that node's `id`, and its target and type are the connection's. |
| Neo4jLoad.ConnectionlessNode | load_to_neo4j.py:90 | a node without `connections` yields no records |
| Neo4jLoad.NodeWithoutConnections | load_to_neo4j.py:88-96 | a node without `connections` contributes nothing, wherever it stands in the list |
| Neo4jLoad.RelationshipBatchesCoverRecords | load_to_neo4j.py:105-107 | every relationship batch has between 1 and 500 records, and together they are all the records, in order |
| Neo4jLoad.WriteRelationships | load_to_neo4j.py:105-107 | the loop writes exactly one transaction per slice of 500 records, in order |
| Neo4jLoad.BatchCreateRelationships | load_to_neo4j.py:84-107 | collects the records, then writes them in batches of 500 |
| Neo4jLoad.Run | load_to_neo4j.py:109-119 | the constraint is applied first. When the file yields no nodes, nothing else is written. Otherwise the log is exactly `LoadLog`: the constraint, the node upserts, then the relationship batches. |
| Neo4jLoad.StagesInOrder | load_to_neo4j.py:111-118 | in a log made of the constraint, then upserts, then relationship creations, the constraint is first and only once, and no upsert follows a relationship creation |
| Neo4jLoad.RunStageOrder | load_to_neo4j.py:109-119 | a run over non-empty data writes 1 + (upsert batches) + (relationship batches) transactions. The constraint is first and never repeated, and no node is upserted after a relationship transaction. |

## Left out

- Client construction and environment reading are not modelled. That covers
  the `__init__` methods (hybrid_chat.py:19-47, pinecone_upload.py:17-39,
  load_to_neo4j.py:16-31), config.py and connectivity checks. It also covers
  `HybridRAG._ensure_pinecone_index` (hybrid_chat.py:49-60), which takes the
  same decision as the uploader's `_ensure_index_exists`
  (`PineconeUpload.EnsureIndexExists`). There the index name and dimension are
  parameters.
- The network calls themselves are not modelled. OpenAI embeddings and chat,
  Pinecone query, upsert and create, and Neo4j sessions are oracles returning
  `Ok` or `Err`. The Neo4j database is a pure function of the transaction, so
  a transaction's outcome cannot depend on earlier ones.
- Cypher and APOC semantics are not modelled. The graph query's `LIMIT 20` and
  `left(description, 300)` run on the server and appear only as the `WithinCap`
  assumption about the oracle.
- HybridChat.EmbedText: an embedding service that answers a successful request
  with no vector would make the source raise `IndexError`. `EmbedsOne` excludes
  that case by precondition.
- PineconeUpload.PrepareData, PineconeUpload.Run: inputs on which
  `_prepare_data` raises are excluded by `AllPreparable`. These are a truthy
  non-string text field, or a kept node without `"id"`. On such nodes the
  specification functions give placeholder values (`Str` gives `""`).
- Neo4jLoad.BatchUpsertNodes: nodes without `"id"` are excluded by
  `AllHaveIds`. On them `node["id"]` raises `KeyError`.
- Neo4jLoad.CollectRelationships, Neo4jLoad.Run: inputs on which
  `batch_create_relationships` raises are excluded by `AllLoadable`, and only
  those. These are a node without `"id"`, and `connections` that are null, a
  number or a boolean. They also include a list entry that is null, a number or
  a boolean, and a list entry that is a string or a list and passes both `in`
  tests. Finally, an object whose key contains both "target" and "relation"
  is excluded. `ConnectionValues` reads these values as empty.
- Neo4jLoad.ConnectionValues: connections given as an object are iterated by
  their keys in the source. No key of an accepted object yields a record, so
  the model visits none, and the key order is not modelled.
- Exceptions other than the ones the source catches are not modelled. Each
  oracle's `Err` stands for the caught class only: `APIError`,
  `PineconeException` or `Neo4jError`. Any other exception ends the run in the
  source, for example a driver error while opening the session, which
  load_to_neo4j.py:50 does outside its `try`.
- HybridChat.GetAnswer: the chat oracle's `Ok` always carries a string.
  `response.choices[0].message.content` (hybrid_chat.py:161) may be `None`,
  and that case is not modelled.
- PineconeUpload.Metadata: metadata values are kept as JSON. Pinecone's own
  conversion of non-string values is not modelled.
- HybridChat.TargetName: a `target_name` present but null in a graph row
  renders as `None` in Python. The model's `Fact.targetName` is `None` only
  for a missing key.
- `Match.id` and the fact fields are strings here. Python's f-string would
  render any value.
- PineconeUpload.UploadBatches: the upsert's outcome is not recorded. The
  source logs and swallows `PineconeException`, so the outcome never changes
  what happens next.
- Logging, `tqdm` progress bars and `time.sleep(5)` (pinecone_upload.py:54) are
  not modelled. Neither are JSON file parsing (the file is `Ok(nodes)` or
  `Err`), JSON numbers (integers here) and embedding contents (only their
  emptiness matters).
- Model names, `temperature` and `max_tokens` are not modelled, and neither is
  the interactive `main()` loop (hybrid_chat.py:172-191).
- main.py (the FastAPI and streaming transport around `get_answer`) is not part
  of this model.
- The driver session lifecycle is not modelled: the `with` blocks and
  `close()`.
