/** The Neo4j loader: applies the uniqueness constraint, then upserts the dataset's
    nodes and creates their relationships in batches of 500, one write
    transaction per batch.

    The database is an oracle `db` that accepts or rejects each transaction; the
    loader's transactions are returned, in order, with whether each committed. */
module Neo4jLoad {
  import opened PyValues
  import opened Batching

  const BatchSize: nat := 500

  /** One entry of an upsert batch: the node's id, its label and its properties. */
  datatype NodePayload = NodePayload(id: Json, nodeType: Json, props: JsonObject)

  /** One entry of a relationship batch. */
  datatype Relationship = Relationship(source: Json, target: Json, relType: Json)

  /** The write transactions the loader issues, with their parameters. */
  datatype Transaction =
    | CreateConstraint
    | UpsertNodes(nodes: seq<NodePayload>)
    | CreateRelationships(rels: seq<Relationship>)

  /** A transaction the loader ran, and whether the database committed it. */
  datatype TxRecord = TxRecord(tx: Transaction, committed: bool)

  /** _run_write_transaction: run the query in its own session; a Neo4j error is
      logged and swallowed, so the caller carries on after it. */
  function RunWriteTransaction(db: Transaction -> Outcome<()>, tx: Transaction): (r: TxRecord)
    ensures r.tx == tx
    ensures r.committed <==> db(tx).Ok?
  {
    TxRecord(tx, db(tx).Ok?)
  }

  function RecordOf(db: Transaction -> Outcome<()>): Transaction -> seq<TxRecord> {
    tx => [RunWriteTransaction(db, tx)]
  }

  /** The records of running each transaction in turn. */
  function Executed(db: Transaction -> Outcome<()>, txs: seq<Transaction>): seq<TxRecord> {
    FlatMap(txs, RecordOf(db))
  }

  /** Running transactions one by one: every transaction is run, in order, whatever
      the database answered to the earlier ones. */
  lemma ExecutedEach(db: Transaction -> Outcome<()>, txs: seq<Transaction>)
    ensures |Executed(db, txs)| == |txs|
    ensures forall k :: 0 <= k < |txs| ==>
      Executed(db, txs)[k].tx == txs[k] && (Executed(db, txs)[k].committed <==> db(txs[k]).Ok?)
  {
    FlatMapExactlyOne(txs, RecordOf(db));
  }

  lemma ExecutedSnoc(db: Transaction -> Outcome<()>, txs: seq<Transaction>, tx: Transaction)
    ensures Executed(db, txs + [tx]) == Executed(db, txs) + [RunWriteTransaction(db, tx)]
  {
    assert (txs + [tx])[..|txs|] == txs;
  }

  // ---------------------------------------------------------------------------
  // The nodes

  /** Every node has an id: batch_upsert_nodes reads `node["id"]`, and nothing else it
      reads can raise. */
  predicate AllHaveIds(nodes: seq<JsonObject>) {
    forall i :: 0 <= i < |nodes| ==> "id" in nodes[i]
  }

  /** The upsert entry of a node: its id, its type ("Unknown" when it has none) and
      every property except "connections". A loadable node has an id, so its entry's
      id is `node["id"]`. */
  function Payload(node: JsonObject): (p: NodePayload)
    ensures "id" in node ==> p.id == node["id"]
    ensures p.nodeType == if "type" in node then node["type"] else JStr("Unknown")
    ensures p.props.Keys == node.Keys - {"connections"}
    ensures forall k :: k in p.props ==> p.props[k] == node[k]
  {
    NodePayload(Get(node, "id"), GetOr(node, "type", JStr("Unknown")), node - {"connections"})
  }

  function Payloads(batch: seq<JsonObject>): (ps: seq<NodePayload>) {
    seq(|batch|, k requires 0 <= k < |batch| => Payload(batch[k]))
  }

  lemma PayloadsAppend(a: seq<JsonObject>, b: seq<JsonObject>)
    ensures Payloads(a + b) == Payloads(a) + Payloads(b)
  {
    forall k | 0 <= k < |a + b| ensures Payloads(a + b)[k] == (Payloads(a) + Payloads(b))[k] {
      if k >= |a| { assert (a + b)[k] == b[k - |a|]; }
    }
  }

  // ---------------------------------------------------------------------------
  // batch_upsert_nodes

  function UpsertOf(batch: seq<JsonObject>): seq<Transaction> {
    [UpsertNodes(Payloads(batch))]
  }

  /** One upsert transaction per batch. */
  function Upserts(batches: seq<seq<JsonObject>>): seq<Transaction> {
    FlatMap(batches, UpsertOf)
  }

  /** The upsert transactions for the nodes: one per batch of 500. */
  function UpsertTransactions(nodes: seq<JsonObject>): seq<Transaction> {
    Upserts(Chunks(nodes, BatchSize))
  }

  lemma UpsertStep(db: Transaction -> Outcome<()>, done: seq<seq<JsonObject>>, batch: seq<JsonObject>)
    ensures Executed(db, Upserts(done + [batch]))
      == Executed(db, Upserts(done)) + [RunWriteTransaction(db, UpsertNodes(Payloads(batch)))]
  {
    assert (done + [batch])[..|done|] == done;
    ExecutedSnoc(db, Upserts(done), UpsertNodes(Payloads(batch)));
  }

  /** batch_upsert_nodes: one write transaction per slice nodes[i:i+500]. */
  method BatchUpsertNodes(db: Transaction -> Outcome<()>, nodes: seq<JsonObject>) returns (log: seq<TxRecord>)
    requires AllHaveIds(nodes)
    ensures log == Executed(db, UpsertTransactions(nodes))
  {
    log := [];
    ghost var done: seq<seq<JsonObject>> := [];
    var i := 0;
    assert nodes[Min(i, |nodes|)..] == nodes;
    while i < |nodes|
      invariant 0 <= i
      invariant done + Chunks(nodes[Min(i, |nodes|)..], BatchSize) == Chunks(nodes, BatchSize)
      invariant log == Executed(db, Upserts(done))
      decreases |nodes| - i
    {
      ChunksAdvance(nodes, i, BatchSize, done);
      var batch := nodes[i..Min(i + BatchSize, |nodes|)];
      var batchData := seq(|batch|, k requires 0 <= k < |batch| => Payload(batch[k]));
      var record := RunWriteTransaction(db, UpsertNodes(batchData));
      UpsertStep(db, done, batch);
      log := log + [record];
      done := done + [batch];
      i := i + BatchSize;
    }
    assert nodes[Min(i, |nodes|)..] == [];
    assert done == Chunks(nodes, BatchSize);
  }

  /** The parameters of upsert transactions, transaction by transaction. */
  function UpsertedNodes(txs: seq<Transaction>): seq<seq<NodePayload>> {
    seq(|txs|, b requires 0 <= b < |txs| => if txs[b].UpsertNodes? then txs[b].nodes else [])
  }

  lemma {:induction false} UpsertsFlatten(batches: seq<seq<JsonObject>>)
    ensures |Upserts(batches)| == |batches|
    ensures forall b :: 0 <= b < |batches| ==> Upserts(batches)[b] == UpsertNodes(Payloads(batches[b]))
    ensures Flatten(UpsertedNodes(Upserts(batches))) == Payloads(Flatten(batches))
    decreases |batches|
  {
    FlatMapExactlyOne(batches, UpsertOf);
    if batches != [] {
      var rest := batches[1..];
      UpsertsFlatten(rest);
      PayloadsAppend(batches[0], Flatten(rest));
      assert UpsertedNodes(Upserts(batches))[1..] == UpsertedNodes(Upserts(rest)) by {
        forall b | 0 <= b < |rest| ensures UpsertedNodes(Upserts(batches))[1..][b] == UpsertedNodes(Upserts(rest))[b] {
          assert rest[b] == batches[b + 1];
        }
      }
    }
  }

  /** The upsert batches cover the nodes exactly once, in order: their payloads,
      concatenated, are the payloads of all the nodes; none is empty or over 500. */
  lemma UpsertBatchesCoverNodes(nodes: seq<JsonObject>)
    ensures forall b :: 0 <= b < |UpsertTransactions(nodes)| ==>
      UpsertTransactions(nodes)[b].UpsertNodes? && 0 < |UpsertTransactions(nodes)[b].nodes| <= BatchSize
    ensures Flatten(UpsertedNodes(UpsertTransactions(nodes))) == Payloads(nodes)
  {
    ChunksSizes(nodes, BatchSize);
    ChunksFlatten(nodes, BatchSize);
    UpsertsFlatten(Chunks(nodes, BatchSize));
  }

  // ---------------------------------------------------------------------------
  // batch_create_relationships

  /** The values `for conn in node.get("connections", [])` visits: nothing without the
      key, the items of a list, the characters of a string (as one-character strings).
      An object is iterated by its keys, strings none of which can yield a record (see
      ConnectionsIterable), so it reads as empty here; other kinds make the loop raise. */
  function ConnectionValues(node: JsonObject): seq<Json> {
    if "connections" !in node then []
    else match node["connections"]
      case JArr(items) => items
      case JStr(s) => seq(|s|, k requires 0 <= k < |s| => JStr([s[k]]))
      case _ => []
  }

  /** `key in conn` for a value the loop visits: a key test on an object, a substring
      test on a string, an element test on a list. */
  predicate HasKey(conn: Json, key: string) {
    match conn
    case JObj(fields) => key in fields
    case JStr(s) => Contains(s, key)
    case JArr(items) => JStr(key) in items
    case _ => false
  }

  /** The loop's test: `"target" in conn and "relation" in conn`. */
  predicate HasTargetAndRelation(conn: Json) {
    HasKey(conn, "target") && HasKey(conn, "relation")
  }

  /** The loop does not raise on this value: `in` applies to it (an object, a string or
      a list), and when the test passes, `conn["target"]` is a key lookup. */
  predicate ConnectionUsable(conn: Json) {
    (conn.JObj? || conn.JStr? || conn.JArr?) && (HasTargetAndRelation(conn) ==> conn.JObj?)
  }

  /** The connections of the node do not make the loop raise: they are absent, a string,
      a list of usable values, or an object none of whose keys contains both "target"
      and "relation". */
  predicate ConnectionsIterable(node: JsonObject) {
    "connections" in node ==>
      match node["connections"]
      case JArr(items) => forall k :: 0 <= k < |items| ==> ConnectionUsable(items[k])
      case JStr(_) => true
      case JObj(fields) => forall key :: key in fields ==> !(Contains(key, "target") && Contains(key, "relation"))
      case _ => false
  }

  /** batch_create_relationships does not raise on this node. */
  predicate Loadable(node: JsonObject) {
    "id" in node && ConnectionsIterable(node)
  }

  predicate AllLoadable(nodes: seq<JsonObject>) {
    forall i :: 0 <= i < |nodes| ==> Loadable(nodes[i])
  }

  /** A connection that yields a record: an object with both keys. */
  predicate Recorded(conn: Json) {
    conn.JObj? && "target" in conn.fields && "relation" in conn.fields
  }

  /** On a node the loop does not raise on, every value it visits is usable; in
      particular a one-character string never passes the test. */
  lemma ConnectionValuesUsable(node: JsonObject)
    requires ConnectionsIterable(node)
    ensures forall k :: 0 <= k < |ConnectionValues(node)| ==> ConnectionUsable(ConnectionValues(node)[k])
  {
    if "connections" in node && node["connections"].JStr? {
      var s := node["connections"].s;
      forall k | 0 <= k < |s| ensures !Contains([s[k]], "target") {
        assert [s[k]][1..] == [];
      }
    }
  }

  /** On a usable value, the loop's test passes exactly when the value yields a record. */
  lemma UsableTest(conn: Json)
    requires ConnectionUsable(conn)
    ensures HasTargetAndRelation(conn) <==> Recorded(conn)
  {
  }

  function RelationshipOf(source: Json, conn: Json): Relationship
    requires Recorded(conn)
  {
    Relationship(source, conn.fields["target"], conn.fields["relation"])
  }

  /** What one connection of the node with id `source` contributes: a record when it
      is an object naming a target and a relation, else nothing. */
  function RelationshipsFor(source: Json): Json -> seq<Relationship> {
    conn => if Recorded(conn) then [RelationshipOf(source, conn)] else []
  }

  /** The records of one node's connections, in connection order. */
  function ConnectionRelationships(source: Json, conns: seq<Json>): seq<Relationship> {
    FlatMap(conns, RelationshipsFor(source))
  }

  /** The records of one node; a node with an id has `node["id"]` as their source. */
  function NodeRelationships(node: JsonObject): seq<Relationship> {
    ConnectionRelationships(Get(node, "id"), ConnectionValues(node))
  }

  /** all_relationships: the records of every node's connections, in node order. */
  function Relationships(nodes: seq<JsonObject>): seq<Relationship> {
    FlatMap(nodes, NodeRelationships)
  }

  /** The loop that collects all_relationships. */
  method CollectRelationships(nodes: seq<JsonObject>) returns (allRelationships: seq<Relationship>)
    requires AllLoadable(nodes)
    ensures allRelationships == Relationships(nodes)
  {
    allRelationships := [];
    for i := 0 to |nodes|
      invariant allRelationships == Relationships(nodes[..i])
    {
      var node := nodes[i];
      var sourceId := node["id"];
      var conns := ConnectionValues(node);
      ConnectionValuesUsable(node);
      ghost var before := allRelationships;
      for j := 0 to |conns|
        invariant allRelationships == before + ConnectionRelationships(sourceId, conns[..j])
      {
        var conn := conns[j];
        ConnectionRelationshipsStep(sourceId, conns, j);
        UsableTest(conn);
        if HasKey(conn, "target") && HasKey(conn, "relation") {
          allRelationships := allRelationships + [Relationship(sourceId, conn.fields["target"], conn.fields["relation"])];
        }
      }
      assert conns[..|conns|] == conns;
      RelationshipsStep(nodes, i);
    }
    assert nodes[..|nodes|] == nodes;
  }

  lemma ConnectionRelationshipsStep(source: Json, conns: seq<Json>, j: nat)
    requires j < |conns|
    ensures ConnectionRelationships(source, conns[..j + 1])
      == ConnectionRelationships(source, conns[..j])
        + if Recorded(conns[j]) then [RelationshipOf(source, conns[j])] else []
  {
    assert conns[..j + 1][..j] == conns[..j];
  }

  lemma RelationshipsStep(nodes: seq<JsonObject>, i: nat)
    requires i < |nodes| && "id" in nodes[i]
    ensures Relationships(nodes[..i + 1])
      == Relationships(nodes[..i]) + ConnectionRelationships(nodes[i]["id"], ConnectionValues(nodes[i]))
  {
    assert nodes[..i + 1][..i] == nodes[..i];
  }

  /** Connections contribute their records in connection order. */
  lemma ConnectionRelationshipsAppend(source: Json, a: seq<Json>, b: seq<Json>)
    ensures ConnectionRelationships(source, a + b)
      == ConnectionRelationships(source, a) + ConnectionRelationships(source, b)
  {
    FlatMapAppend(a, b, RelationshipsFor(source));
  }

  /** Nodes contribute their records in node order. */
  lemma RelationshipsAppend(a: seq<JsonObject>, b: seq<JsonObject>)
    ensures Relationships(a + b) == Relationships(a) + Relationships(b)
  {
    FlatMapAppend(a, b, NodeRelationships);
  }

  lemma ConnectionlessNode(node: JsonObject)
    requires "connections" !in node
    ensures Relationships([node]) == []
  {
    FlatMapSingle(node, NodeRelationships);
    assert NodeRelationships(node) == FlatMap([], RelationshipsFor(Get(node, "id")));
  }

  /** A node without a "connections" key contributes nothing, wherever it stands. */
  lemma NodeWithoutConnections(a: seq<JsonObject>, node: JsonObject, b: seq<JsonObject>)
    requires "connections" !in node
    ensures Relationships(a + [node] + b) == Relationships(a + b)
  {
    ConnectionlessNode(node);
    RelationshipsAppend(a, [node]);
    RelationshipsAppend(a + [node], b);
    RelationshipsAppend(a, b);
  }

  /** A string in place of the connection list is walked character by character, and
      no character passes the test: the node contributes nothing. */
  lemma StringConnectionsRecordNothing(node: JsonObject)
    requires "connections" in node && node["connections"].JStr?
    ensures NodeRelationships(node) == []
  {
    var conns := ConnectionValues(node);
    forall k | 0 <= k < |conns| ensures RelationshipsFor(Get(node, "id"))(conns[k]) == [] {
      assert conns[k].JStr?;
    }
    FlatMapNone(conns, RelationshipsFor(Get(node, "id")));
  }

  /** A list mixing a string with a complete connection object: the loop does not raise
      (the string only fails the substring test) and records the object alone. */
  lemma MixedConnectionsExample(target: Json, relation: Json)
    ensures var conn := map["target" := target, "relation" := relation];
      var node := map["id" := JStr("n"), "connections" := JArr([JStr("x"), JObj(conn)])];
      Loadable(node) && NodeRelationships(node) == [Relationship(JStr("n"), target, relation)]
  {
    var conn := map["target" := target, "relation" := relation];
    var node := map["id" := JStr("n"), "connections" := JArr([JStr("x"), JObj(conn)])];
    assert !Contains("x", "target") by {
      assert "x"[1..] == [];
    }
    var f := RelationshipsFor(JStr("n"));
    assert [JStr("x"), JObj(conn)] == [JStr("x")] + [JObj(conn)];
    FlatMapAppend([JStr("x")], [JObj(conn)], f);
    FlatMapSingle(JStr("x"), f);
    FlatMapSingle(JObj(conn), f);
  }

  /** One record per connection that is an object with both a target and a relation,
      and none for the others: r is recorded exactly when such a connection produces it. */
  lemma ConnectionRelationshipsMembers(source: Json, conns: seq<Json>)
    ensures |ConnectionRelationships(source, conns)| <= |conns|
    ensures forall r :: r in ConnectionRelationships(source, conns) <==>
      exists j :: 0 <= j < |conns| && Recorded(conns[j]) && r == RelationshipOf(source, conns[j])
  {
    FlatMapAtMostOne(conns, RelationshipsFor(source));
    forall r
      ensures r in ConnectionRelationships(source, conns) <==>
        exists j :: 0 <= j < |conns| && Recorded(conns[j]) && r == RelationshipOf(source, conns[j])
    {
      FlatMapMember(conns, RelationshipsFor(source), r);
    }
  }

  /** When every connection is an object naming a target and a relation, there is one
      record per connection, in connection order. */
  lemma AllConnectionsRecorded(source: Json, conns: seq<Json>)
    requires forall j :: 0 <= j < |conns| ==> Recorded(conns[j])
    ensures |ConnectionRelationships(source, conns)| == |conns|
    ensures forall j :: 0 <= j < |conns| ==>
      ConnectionRelationships(source, conns)[j] == RelationshipOf(source, conns[j])
  {
    FlatMapExactlyOne(conns, RelationshipsFor(source));
  }

  /** r is recorded exactly when some connection of some node is an object naming a
      target and a relation, and r links that node's id to them. */
  lemma RelationshipsMembers(nodes: seq<JsonObject>, r: Relationship)
    requires AllHaveIds(nodes)
    ensures r in Relationships(nodes) <==>
      exists i, j :: 0 <= i < |nodes| && 0 <= j < |ConnectionValues(nodes[i])|
        && Recorded(ConnectionValues(nodes[i])[j]) && r == RelationshipOf(nodes[i]["id"], ConnectionValues(nodes[i])[j])
  {
    FlatMapMember(nodes, NodeRelationships, r);
    if r in Relationships(nodes) {
      var i :| 0 <= i < |nodes| && r in NodeRelationships(nodes[i]);
      ConnectionRelationshipsMembers(nodes[i]["id"], ConnectionValues(nodes[i]));
    }
    if exists i, j :: 0 <= i < |nodes| && 0 <= j < |ConnectionValues(nodes[i])|
        && Recorded(ConnectionValues(nodes[i])[j]) && r == RelationshipOf(nodes[i]["id"], ConnectionValues(nodes[i])[j]) {
      var i, j :| 0 <= i < |nodes| && 0 <= j < |ConnectionValues(nodes[i])|
        && Recorded(ConnectionValues(nodes[i])[j]) && r == RelationshipOf(nodes[i]["id"], ConnectionValues(nodes[i])[j]);
      ConnectionRelationshipsMembers(nodes[i]["id"], ConnectionValues(nodes[i]));
      assert r in NodeRelationships(nodes[i]);
    }
  }

  function CreateOf(batch: seq<Relationship>): seq<Transaction> {
    [CreateRelationships(batch)]
  }

  /** One relationship transaction per batch. */
  function Creates(batches: seq<seq<Relationship>>): seq<Transaction> {
    FlatMap(batches, CreateOf)
  }

  /** The relationship transactions: one per batch of 500 records. */
  function RelationshipTransactions(rels: seq<Relationship>): seq<Transaction> {
    Creates(Chunks(rels, BatchSize))
  }

  /** The parameters of relationship transactions, transaction by transaction. */
  function CreatedRelationships(txs: seq<Transaction>): seq<seq<Relationship>> {
    seq(|txs|, b requires 0 <= b < |txs| => if txs[b].CreateRelationships? then txs[b].rels else [])
  }

  /** The relationship batches cover the records exactly once, in order. */
  lemma RelationshipBatchesCoverRecords(rels: seq<Relationship>)
    ensures forall b :: 0 <= b < |RelationshipTransactions(rels)| ==>
      RelationshipTransactions(rels)[b].CreateRelationships? && 0 < |RelationshipTransactions(rels)[b].rels| <= BatchSize
    ensures Flatten(CreatedRelationships(RelationshipTransactions(rels))) == rels
  {
    ChunksSizes(rels, BatchSize);
    ChunksFlatten(rels, BatchSize);
    FlatMapExactlyOne(Chunks(rels, BatchSize), CreateOf);
    assert CreatedRelationships(RelationshipTransactions(rels)) == Chunks(rels, BatchSize);
  }

  lemma CreateStep(db: Transaction -> Outcome<()>, done: seq<seq<Relationship>>, batch: seq<Relationship>)
    ensures Executed(db, Creates(done + [batch]))
      == Executed(db, Creates(done)) + [RunWriteTransaction(db, CreateRelationships(batch))]
  {
    assert (done + [batch])[..|done|] == done;
    ExecutedSnoc(db, Creates(done), CreateRelationships(batch));
  }

  /** batch_create_relationships: collect the records, then write them. */
  method BatchCreateRelationships(db: Transaction -> Outcome<()>, nodes: seq<JsonObject>) returns (log: seq<TxRecord>)
    requires AllLoadable(nodes)
    ensures log == Executed(db, RelationshipTransactions(Relationships(nodes)))
  {
    var allRelationships := CollectRelationships(nodes);
    log := WriteRelationships(db, allRelationships);
  }

  /** The batch loop of batch_create_relationships: one write transaction per slice
      all_relationships[i:i+500]. */
  method WriteRelationships(db: Transaction -> Outcome<()>, allRelationships: seq<Relationship>) returns (log: seq<TxRecord>)
    ensures log == Executed(db, RelationshipTransactions(allRelationships))
  {
    log := [];
    ghost var done: seq<seq<Relationship>> := [];
    var i := 0;
    assert allRelationships[Min(i, |allRelationships|)..] == allRelationships;
    while i < |allRelationships|
      invariant 0 <= i
      invariant done + Chunks(allRelationships[Min(i, |allRelationships|)..], BatchSize) == Chunks(allRelationships, BatchSize)
      invariant log == Executed(db, Creates(done))
      decreases |allRelationships| - i
    {
      ChunksAdvance(allRelationships, i, BatchSize, done);
      var batch := allRelationships[i..Min(i + BatchSize, |allRelationships|)];
      var record := RunWriteTransaction(db, CreateRelationships(batch));
      CreateStep(db, done, batch);
      log := log + [record];
      done := done + [batch];
      i := i + BatchSize;
    }
    assert allRelationships[Min(i, |allRelationships|)..] == [];
    assert done == Chunks(allRelationships, BatchSize);
  }

  // ---------------------------------------------------------------------------
  // run

  /** The records of a run over non-empty data: the constraint, the node upserts, then
      the relationship batches. */
  function LoadLog(db: Transaction -> Outcome<()>, nodes: seq<JsonObject>): seq<TxRecord> {
    [RunWriteTransaction(db, CreateConstraint)]
      + Executed(db, UpsertTransactions(nodes))
      + Executed(db, RelationshipTransactions(Relationships(nodes)))
  }

  /** run: the constraint, then (when the file yields any nodes) the node upserts,
      then the relationships. */
  method Run(db: Transaction -> Outcome<()>, file: Outcome<seq<JsonObject>>) returns (log: seq<TxRecord>)
    requires AllLoadable(Loaded(file))
    ensures Loaded(file) == [] ==> log == [RunWriteTransaction(db, CreateConstraint)]
    ensures Loaded(file) != [] ==> log == LoadLog(db, Loaded(file))
  {
    var constraint := RunWriteTransaction(db, CreateConstraint);
    log := [constraint];
    var nodesData := Loaded(file);
    if |nodesData| == 0 {
      return;
    }
    var upserts := BatchUpsertNodes(db, nodesData);
    var relationships := BatchCreateRelationships(db, nodesData);
    log := log + upserts + relationships;
  }

  lemma UpsertRecords(db: Transaction -> Outcome<()>, nodes: seq<JsonObject>)
    ensures forall k :: 0 <= k < |Executed(db, UpsertTransactions(nodes))| ==>
      Executed(db, UpsertTransactions(nodes))[k].tx.UpsertNodes?
  {
    ExecutedEach(db, UpsertTransactions(nodes));
    FlatMapExactlyOne(Chunks(nodes, BatchSize), UpsertOf);
  }

  lemma CreateRecords(db: Transaction -> Outcome<()>, rels: seq<Relationship>)
    ensures forall k :: 0 <= k < |Executed(db, RelationshipTransactions(rels))| ==>
      Executed(db, RelationshipTransactions(rels))[k].tx.CreateRelationships?
  {
    ExecutedEach(db, RelationshipTransactions(rels));
    FlatMapExactlyOne(Chunks(rels, BatchSize), CreateOf);
  }

  /** The stage order of a log made of one constraint record, then upsert records,
      then relationship records. */
  lemma StagesInOrder(c: TxRecord, u: seq<TxRecord>, r: seq<TxRecord>)
    requires c.tx == CreateConstraint
    requires forall k :: 0 <= k < |u| ==> u[k].tx.UpsertNodes?
    requires forall k :: 0 <= k < |r| ==> r[k].tx.CreateRelationships?
    ensures ([c] + u + r)[0].tx == CreateConstraint
    ensures forall k :: 1 <= k < |[c] + u + r| ==> !([c] + u + r)[k].tx.CreateConstraint?
    ensures forall j, k :: 0 <= j < k < |[c] + u + r| && ([c] + u + r)[j].tx.CreateRelationships? ==>
      !([c] + u + r)[k].tx.UpsertNodes?
  {
    var log := [c] + u + r;
    assert forall k :: 1 <= k < 1 + |u| ==> log[k] == u[k - 1];
    assert forall k :: 1 + |u| <= k < |log| ==> log[k] == r[k - 1 - |u|];
  }

  /** The order of the stages: the constraint comes first and only once, every upsert
      batch is issued, and no node is upserted after a relationship transaction. */
  lemma RunStageOrder(db: Transaction -> Outcome<()>, nodes: seq<JsonObject>)
    ensures |LoadLog(db, nodes)| == 1 + |UpsertTransactions(nodes)| + |RelationshipTransactions(Relationships(nodes))|
    ensures LoadLog(db, nodes)[0].tx == CreateConstraint
    ensures forall k :: 1 <= k < |LoadLog(db, nodes)| ==> !LoadLog(db, nodes)[k].tx.CreateConstraint?
    ensures forall j, k :: 0 <= j < k < |LoadLog(db, nodes)| && LoadLog(db, nodes)[j].tx.CreateRelationships? ==>
      !LoadLog(db, nodes)[k].tx.UpsertNodes?
  {
    ExecutedEach(db, UpsertTransactions(nodes));
    ExecutedEach(db, RelationshipTransactions(Relationships(nodes)));
    UpsertRecords(db, nodes);
    CreateRecords(db, Relationships(nodes));
    StagesInOrder(RunWriteTransaction(db, CreateConstraint), Executed(db, UpsertTransactions(nodes)),
      Executed(db, RelationshipTransactions(Relationships(nodes))));
  }
}
