/** The HybridRAG question-answering pipeline: embed the query, look up similar
    entities in the vector index, expand their ids into graph facts, compose a
    two-message chat prompt and ask the chat model.

    The OpenAI, Pinecone and Neo4j clients are oracles (see Services). Every
    operation returns, beside its value, the service calls it issued, in order. */
module HybridChat {
  import opened PyValues
  import opened Text

  datatype Role = System | User
  datatype Message = Message(role: Role, content: string)

  /** A vector-index match; `metadata` is None when the match has no metadata entry. */
  datatype Match = Match(id: string, score: real, metadata: Option<map<string, string>>)

  /** A row of the graph query; `targetName` is None when the row has no name. */
  datatype Fact = Fact(
    sourceId: string,
    relation: string,
    targetId: string,
    targetName: Option<string>,
    targetDesc: string,
    targetLabels: seq<string>)

  /** The clients HybridRAG holds, as functions from request to outcome. */
  datatype Services = Services(
    embed: seq<string> -> Outcome<seq<Embedding>>,
    query: (Embedding, nat) -> Outcome<seq<Match>>,
    graph: seq<string> -> Outcome<seq<Fact>>,
    chat: seq<Message> -> Outcome<string>)

  /** One request to an external service. */
  datatype Call =
    | EmbedCall(texts: seq<string>)
    | IndexQuery(vector: Embedding, topK: nat)
    | GraphQuery(ids: seq<string>)
    | ChatCall(messages: seq<Message>)

  datatype Traced<+T> = Traced(value: T, calls: seq<Call>)

  const DefaultTopK: nat := 5
  const AnswerTopK: nat := 3
  const FactCap: nat := 20
  const DescriptionCap: nat := 300
  const NoDescription := "No description available."
  const Apology := "I'm sorry, but I encountered an error while trying to generate a response. Please try again later."

  const SystemPrompt :=
    "You are an expert travel assistant for Vietnam.\n"
    + "Your goal is to provide helpful, concise, and fact-based answers.\n"
    + "- Use the **CONTEXT** provided below to answer the user's **QUERY**.\n"
    + "- The context includes semantic matches from a vector database and factual relationships from a graph database.\n"
    + "- **Synthesize information from both sources** to create a complete answer.\n"
    + "- **Cite your sources** by mentioning the node IDs (e.g., `city_hanoi`) in parentheses after the name of a place.\n"
    + "- If the context does not contain enough information to answer, state that you cannot answer fully and explain what information is missing. **Do not make up information.**\n"
    + "- Format your response using Markdown for readability. Use lists or bold text where appropriate."

  // The fixed lines of the CONTEXT block, written as text plus line breaks.
  const Header := "## CONTEXT" + "\n" + "\n"
  const MatchesHeading := "### Top Semantic Matches:" + "\n"
  const NoMatchesLine := "No semantic matches found." + "\n"
  const FactsHeading := "\n" + "### Related Factual Connections:" + "\n"
  const NoFactsLine := "\n" + "No factual connections found." + "\n"
  const QueryHeading := "\n\n## QUERY\n\n"

  // ---------------------------------------------------------------------------
  // Retrieval

  /** The embedding service answers a successful request with one vector per text.
      (An empty answer would make the source raise IndexError.) */
  predicate EmbedsOne(svc: Services, text: string) {
    svc.embed([text]).Ok? ==> |svc.embed([text]).value| >= 1
  }

  /** embed_text: the first vector of the service's answer, or [] on an API error. */
  function EmbedText(svc: Services, text: string): (r: Traced<Embedding>)
    requires EmbedsOne(svc, text)
    ensures r.calls == [EmbedCall([text])]
    ensures svc.embed([text]).Ok? ==> r.value == svc.embed([text]).value[0]
    ensures svc.embed([text]).Err? ==> r.value == []
  {
    var resp := svc.embed([text]);
    if resp.Ok? then Traced(resp.value[0], [EmbedCall([text])])
    else Traced([], [EmbedCall([text])])
  }

  /** pinecone_query: no index query without an embedding; the service's matches
      unchanged on success; [] on a Pinecone error. */
  function PineconeQuery(svc: Services, queryText: string, topK: nat := DefaultTopK): (r: Traced<seq<Match>>)
    requires EmbedsOne(svc, queryText)
    ensures |r.calls| >= 1 && r.calls[0] == EmbedCall([queryText])
    ensures var vec := EmbedText(svc, queryText).value;
      if vec == [] then
        r.value == [] && r.calls == [EmbedCall([queryText])]
      else
        && r.calls == [EmbedCall([queryText]), IndexQuery(vec, topK)]
        && r.value == (if svc.query(vec, topK).Ok? then svc.query(vec, topK).value else [])
  {
    var e := EmbedText(svc, queryText);
    if e.value == [] then Traced([], e.calls)
    else
      var res := svc.query(e.value, topK);
      Traced(if res.Ok? then res.value else [], e.calls + [IndexQuery(e.value, topK)])
  }

  /** What the graph query promises server-side: at most 20 rows (LIMIT 20), each
      description cut to 300 characters or replaced by NoDescription. */
  predicate WithinCap(facts: seq<Fact>) {
    && |facts| <= FactCap
    && forall i :: 0 <= i < |facts| ==>
         |facts[i].targetDesc| <= DescriptionCap || facts[i].targetDesc == NoDescription
  }

  /** fetch_graph_context: nothing is asked for no ids; otherwise one query for the
      whole id list, whose rows are returned as they come, or [] on a Neo4j error. */
  function FetchGraphContext(svc: Services, nodeIds: seq<string>): (r: Traced<seq<Fact>>)
    ensures nodeIds == [] ==> r.value == [] && r.calls == []
    ensures nodeIds != [] ==> r.calls == [GraphQuery(nodeIds)]
    ensures nodeIds != [] && svc.graph(nodeIds).Ok? ==> r.value == svc.graph(nodeIds).value
    ensures svc.graph(nodeIds).Err? ==> r.value == []
    ensures (svc.graph(nodeIds).Ok? ==> WithinCap(svc.graph(nodeIds).value)) ==> WithinCap(r.value)
  {
    if nodeIds == [] then Traced([], [])
    else
      var res := svc.graph(nodeIds);
      Traced(if res.Ok? then res.value else [], [GraphQuery(nodeIds)])
  }

  /** The ids of the matches, in match order. */
  function MatchIds(matches: seq<Match>): (ids: seq<string>)
    ensures |ids| == |matches|
    ensures forall i :: 0 <= i < |matches| ==> ids[i] == matches[i].id
  {
    seq(|matches|, i requires 0 <= i < |matches| => matches[i].id)
  }

  // ---------------------------------------------------------------------------
  // Prompt rendering

  /** `m.get('metadata', {}).get(key, 'N/A')`. */
  function MetaField(m: Match, key: string): string {
    match m.metadata
    case Some(meta) => if key in meta then meta[key] else "N/A"
    case None => "N/A"
  }

  /** `f.get('target_name', 'N/A')`. */
  function TargetName(f: Fact): string {
    match f.targetName
    case Some(name) => name
    case None => "N/A"
  }

  /** The bullet for one match, without its final newline. */
  function MatchText(m: Match): string {
    "- **" + MetaField(m, "name") + "** (`" + m.id + "`): A " + MetaField(m, "type")
    + " in " + MetaField(m, "city") + "."
  }

  function MatchBullet(m: Match): string {
    MatchText(m) + "\n"
  }

  /** The bullet for one fact, without its final newline. */
  function FactText(f: Fact): string {
    "- The entity `" + f.sourceId + "` has a relation `" + f.relation + "` with **"
    + TargetName(f) + "** (`" + f.targetId + "`), which is described as: " + f.targetDesc
  }

  function FactBullet(f: Fact): string {
    FactText(f) + "\n"
  }

  function MatchesSection(ms: seq<Match>): string {
    if ms == [] then NoMatchesLine else MatchesHeading + Render(ms, MatchBullet)
  }

  function FactsSection(fs: seq<Fact>): string {
    if fs == [] then NoFactsLine else FactsHeading + Render(fs, FactBullet)
  }

  /** The CONTEXT block: header, then the matches, then the facts. */
  function Context(ms: seq<Match>, fs: seq<Fact>): string {
    Header + MatchesSection(ms) + FactsSection(fs)
  }

  /** The prompt build_enhanced_prompt returns. */
  function EnhancedPrompt(query: string, ms: seq<Match>, fs: seq<Fact>): seq<Message> {
    [Message(System, SystemPrompt), Message(User, Context(ms, fs) + QueryHeading + query)]
  }

  /** build_enhanced_prompt: grows the context string bullet by bullet. */
  method BuildEnhancedPrompt(userQuery: string, matches: seq<Match>, facts: seq<Fact>)
    returns (prompt: seq<Message>)
    ensures prompt == EnhancedPrompt(userQuery, matches, facts)
    ensures |prompt| == 2 && prompt[0] == Message(System, SystemPrompt) && prompt[1].role == User
  {
    var context := Header;
    if |matches| > 0 {
      context := context + MatchesHeading;
      context := AppendBullets(context, matches, MatchBullet);
      AppendAssoc(Header, MatchesHeading, Render(matches, MatchBullet));
    } else {
      context := context + NoMatchesLine;
    }
    if |facts| > 0 {
      ghost var withMatches := context;
      context := context + FactsHeading;
      context := AppendBullets(context, facts, FactBullet);
      AppendAssoc(withMatches, FactsHeading, Render(facts, FactBullet));
    } else {
      context := context + NoFactsLine;
    }
    assert context == Context(matches, facts);
    var userContent := context + QueryHeading + userQuery;
    prompt := [Message(System, SystemPrompt), Message(User, userContent)];
  }

  /** The user message opens with the CONTEXT header and closes with the QUERY
      heading followed by the query itself. */
  lemma UserContentFrame(query: string, ms: seq<Match>, fs: seq<Fact>)
    ensures var c := EnhancedPrompt(query, ms, fs)[1].content;
      && Header <= c
      && |c| >= |QueryHeading + query|
      && c[|c| - |QueryHeading + query|..] == QueryHeading + query
  {
    var rest := MatchesSection(ms) + FactsSection(fs) + QueryHeading + query;
    var c := EnhancedPrompt(query, ms, fs)[1].content;
    assert c == Header + rest by {
      AppendAssoc(Header, MatchesSection(ms), FactsSection(fs));
      AppendAssoc(Header, MatchesSection(ms) + FactsSection(fs), QueryHeading);
      AppendAssoc(Header, MatchesSection(ms) + FactsSection(fs) + QueryHeading, query);
    }
    assert (Header + rest)[..|Header|] == Header;
    var front := Context(ms, fs);
    assert c == front + (QueryHeading + query) by {
      AppendAssoc(front, QueryHeading, query);
    }
    assert (front + (QueryHeading + query))[|front|..] == QueryHeading + query;
  }

  // ---------------------------------------------------------------------------
  // The pipeline

  /** The prompt get_answer sends for the query. */
  function AnswerPrompt(svc: Services, query: string): seq<Message>
    requires EmbedsOne(svc, query)
  {
    var matches := PineconeQuery(svc, query, AnswerTopK).value;
    EnhancedPrompt(query, matches, FetchGraphContext(svc, MatchIds(matches)).value)
  }

  /** The calls get_answer makes, in order: retrieval, graph expansion, chat. */
  function AnswerCalls(svc: Services, query: string): seq<Call>
    requires EmbedsOne(svc, query)
  {
    var matches := PineconeQuery(svc, query, AnswerTopK);
    matches.calls + FetchGraphContext(svc, MatchIds(matches.value)).calls + [ChatCall(AnswerPrompt(svc, query))]
  }

  /** get_answer: three matches, their ids (in order) into graph expansion, the prompt
      built from both into the chat model; the apology when the chat call fails. */
  method GetAnswer(svc: Services, query: string) returns (answer: string, calls: seq<Call>)
    requires EmbedsOne(svc, query)
    ensures calls == AnswerCalls(svc, query)
    ensures svc.chat(AnswerPrompt(svc, query)).Ok? ==> answer == svc.chat(AnswerPrompt(svc, query)).value
    ensures svc.chat(AnswerPrompt(svc, query)).Err? ==> answer == Apology
  {
    var matches := PineconeQuery(svc, query, AnswerTopK);
    var matchIds := MatchIds(matches.value);
    var graphFacts := FetchGraphContext(svc, matchIds);
    var prompt := BuildEnhancedPrompt(query, matches.value, graphFacts.value);
    var response := svc.chat(prompt);
    if response.Ok? {
      answer := response.value;
    } else {
      answer := Apology;
    }
    calls := matches.calls + graphFacts.calls + [ChatCall(prompt)];
  }

  /** The calls of get_answer, case by case: the query is embedded; when that gives
      a vector, the index is asked for three matches with it; when there are matches,
      the graph is asked about exactly their ids, in match order; the chat model is
      called last, in every case. */
  lemma AnswerCallsShape(svc: Services, query: string)
    requires EmbedsOne(svc, query)
    ensures var vec := EmbedText(svc, query).value;
      var ids := MatchIds(PineconeQuery(svc, query, AnswerTopK).value);
      var chat := ChatCall(AnswerPrompt(svc, query));
      && (vec == [] ==> AnswerCalls(svc, query) == [EmbedCall([query]), chat])
      && (vec != [] && ids == [] ==>
            AnswerCalls(svc, query) == [EmbedCall([query]), IndexQuery(vec, AnswerTopK), chat])
      && (vec != [] && ids != [] ==>
            AnswerCalls(svc, query) == [EmbedCall([query]), IndexQuery(vec, AnswerTopK), GraphQuery(ids), chat])
  {
    var vec := EmbedText(svc, query).value;
    var matches := PineconeQuery(svc, query, AnswerTopK);
    var graph := FetchGraphContext(svc, MatchIds(matches.value));
    var chat := ChatCall(AnswerPrompt(svc, query));
    assert AnswerCalls(svc, query) == matches.calls + graph.calls + [chat];
    if vec == [] {
      assert matches.calls == [EmbedCall([query])] && matches.value == [];
      assert graph.calls == [];
    }
  }

  // ---------------------------------------------------------------------------
  // Properties of the rendering

  /** Missing metadata renders as N/A in every field. */
  lemma MissingMetadataRendersNA(m: Match)
    requires m.metadata.None?
    ensures MatchBullet(m) == "- **N/A** (`" + m.id + "`): A N/A in N/A.\n"
  {
  }

  /** A missing target name renders as N/A. */
  lemma MissingTargetNameRendersNA(f: Fact)
    requires f.targetName.None?
    ensures FactBullet(f) == "- The entity `" + f.sourceId + "` has a relation `" + f.relation
      + "` with **N/A** (`" + f.targetId + "`), which is described as: " + f.targetDesc + "\n"
  {
  }

  // ---------------------------------------------------------------------------
  // One line per match and per fact

  /** The fields a match bullet shows contain no newline. */
  predicate MatchOnOneLine(m: Match) {
    '\n' !in m.id && '\n' !in MetaField(m, "name") && '\n' !in MetaField(m, "type")
    && '\n' !in MetaField(m, "city")
  }

  /** The fields a fact bullet shows contain no newline. */
  predicate FactOnOneLine(f: Fact) {
    '\n' !in f.sourceId && '\n' !in f.relation && '\n' !in TargetName(f)
    && '\n' !in f.targetId && '\n' !in f.targetDesc
  }

  lemma MatchBulletIsOneLine(m: Match)
    requires MatchOnOneLine(m)
    ensures NewlineCount(MatchBullet(m)) == 1
  {
    OneLineCount(MatchText(m));
  }

  lemma FactBulletIsOneLine(f: Fact)
    requires FactOnOneLine(f)
    ensures NewlineCount(FactBullet(f)) == 1
  {
    OneLineCount(FactText(f));
  }

  /** With single-line fields, the matches section is one line per match after its
      heading line, or the single "no matches" line. */
  lemma MatchesSectionLines(ms: seq<Match>)
    requires forall i :: 0 <= i < |ms| ==> MatchOnOneLine(ms[i])
    ensures NewlineCount(MatchesSection(ms)) == if ms == [] then 1 else 1 + |ms|
  {
    if ms == [] {
      OneLineCount("No semantic matches found.");
    } else {
      forall i | 0 <= i < |ms| ensures NewlineCount(MatchBullet(ms[i])) == 1 {
        MatchBulletIsOneLine(ms[i]);
      }
      RenderLineCount(ms, MatchBullet);
      OneLineCount("### Top Semantic Matches:");
      NewlineCountAppend(MatchesHeading, Render(ms, MatchBullet));
    }
  }

  lemma NoFactsLines()
    ensures NewlineCount(NoFactsLine) == 2
  {
    OneLineCount("");
    assert "" + "\n" == "\n";
    OneLineCount("No factual connections found.");
    NewlineCountAppend("\n", "No factual connections found." + "\n");
    assert NoFactsLine == "\n" + ("No factual connections found." + "\n");
  }

  lemma FixedFactLines()
    ensures NewlineCount(FactsHeading) == 2 && NewlineCount(NoFactsLine) == 2
  {
    NoFactsLines();
    OneLineCount("");
    assert "" + "\n" == "\n";
    OneLineCount("### Related Factual Connections:");
    NewlineCountAppend("\n", "### Related Factual Connections:" + "\n");
    assert FactsHeading == "\n" + ("### Related Factual Connections:" + "\n");
  }

  /** With single-line fields, the facts section is a blank line, then one line per
      fact after its heading line, or the single "no connections" line. */
  lemma FactsSectionLines(fs: seq<Fact>)
    requires forall i :: 0 <= i < |fs| ==> FactOnOneLine(fs[i])
    ensures NewlineCount(FactsSection(fs)) == if fs == [] then 2 else 2 + |fs|
  {
    FixedFactLines();
    if fs != [] {
      forall i | 0 <= i < |fs| ensures NewlineCount(FactBullet(fs[i])) == 1 {
        FactBulletIsOneLine(fs[i]);
      }
      RenderLineCount(fs, FactBullet);
      NewlineCountAppend(FactsHeading, Render(fs, FactBullet));
    }
  }

  /** The CONTEXT block counts two header lines, then the lines of both sections:
      one line per match and one per fact. */
  lemma ContextLineCount(ms: seq<Match>, fs: seq<Fact>)
    requires forall i :: 0 <= i < |ms| ==> MatchOnOneLine(ms[i])
    requires forall i :: 0 <= i < |fs| ==> FactOnOneLine(fs[i])
    ensures NewlineCount(Context(ms, fs)) ==
      2 + (if ms == [] then 1 else 1 + |ms|) + (if fs == [] then 2 else 2 + |fs|)
  {
    MatchesSectionLines(ms);
    FactsSectionLines(fs);
    HeaderLines();
    NewlineCountAppend(Header, MatchesSection(ms));
    NewlineCountAppend(Header + MatchesSection(ms), FactsSection(fs));
  }

  lemma HeaderLines()
    ensures NewlineCount(Header) == 2
  {
    OneLineCount("## CONTEXT");
    OneLineCount("");
    assert "" + "\n" == "\n";
    NewlineCountAppend("## CONTEXT" + "\n", "\n");
  }
}
