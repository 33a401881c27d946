/** The `/generate` endpoint of the web service: embed the question, fetch the
    nearest chunk texts, ask the chat model, and answer with either a success
    record or an error-only record. The embedding and chat services and the
    database are parameters. */
module Api {
  import opened Common
  import opened Text
  import opened Sql

  const DefaultTopK := 3

  // ---------------------------------------------------------------- retrieval

  /** `[str(x) for x in embedding]`, with `render` standing for `str` on a float. */
  function Rendered(embedding: Vector, render: real -> string): (r: seq<string>)
    ensures |r| == |embedding| && forall i :: 0 <= i < |r| ==> r[i] == render(embedding[i])
  {
    seq(|embedding|, i requires 0 <= i < |embedding| => render(embedding[i]))
  }

  /** `"[" + ",".join(...) + "]"`: the vector literal bound to the query. */
  function EmbeddingLiteral(embedding: Vector, render: real -> string): string {
    "[" + Join(",", Rendered(embedding, render)) + "]"
  }

  /** A literal of `n >= 1` components holds `n - 1` commas, provided no
      rendered component holds one. */
  lemma EmbeddingLiteralCommas(embedding: Vector, render: real -> string)
    requires |embedding| > 0
    requires forall i :: 0 <= i < |embedding| ==> ',' !in render(embedding[i])
    ensures multiset(EmbeddingLiteral(embedding, render))[','] == |embedding| - 1
  {
    var items := Rendered(embedding, render);
    assert forall x :: x in items ==> ',' !in x;
    JoinSeparatorCount(',', items);
    assert "," == [','];
    assert EmbeddingLiteral(embedding, render) == "[" + Join(",", items) + "]";
  }

  /** The literal is bracketed, and splitting its inside at the commas gives
      back the rendered components in order. */
  lemma EmbeddingLiteralRoundTrip(embedding: Vector, render: real -> string)
    requires |embedding| > 0
    requires forall i :: 0 <= i < |embedding| ==> ',' !in render(embedding[i])
    ensures var lit := EmbeddingLiteral(embedding, render);
      |lit| >= 2 && lit[0] == '[' && lit[|lit| - 1] == ']' &&
      Split(lit[1..|lit| - 1], ',') == Rendered(embedding, render)
  {
    var items := Rendered(embedding, render);
    assert forall x :: x in items ==> ',' !in x;
    assert "," == [','];
    SplitJoin(',', items);
    var lit := EmbeddingLiteral(embedding, render);
    assert lit[1..|lit| - 1] == Join(",", items);
  }

  /** The triple-quoted query text of the endpoint's retrieval. */
  function ChunkQueryText(topK: int): string {
    Line(4, "SELECT chunk, embedding") + Line(4, "FROM papers") +
    Line(4, "ORDER BY embedding <-> " + Placeholder) + LimitLine(4, topK) + Line(4, "")
  }

  function ChunkQuery(embedding: Vector, render: real -> string, topK: int): Query {
    Query(ChunkQueryText(topK), [TextParam(EmbeddingLiteral(embedding, render))])
  }

  /** The one placeholder receives the vector literal. */
  lemma ChunkQueryBinds(embedding: Vector, render: real -> string, topK: int)
    ensures Binds(ChunkQuery(embedding, render, topK))
  {
    LineWithoutPlaceholder(4, "SELECT chunk, embedding");
    LineWithoutPlaceholder(4, "FROM papers");
    DistanceLineHasOnePlaceholder();
    LimitLineWithoutPlaceholder(4, topK);
    LineWithoutPlaceholder(4, "");
    PlaceholdersOfLines("", Line(4, "SELECT chunk, embedding"), Line(4, "FROM papers"),
                        Line(4, "ORDER BY embedding <-> " + Placeholder), LimitLine(4, topK), Line(4, ""));
    PlaceholdersNone("");
    assert "" + Line(4, "SELECT chunk, embedding") == Line(4, "SELECT chunk, embedding");
  }

  lemma DistanceLineHasOnePlaceholder()
    ensures Placeholders(Line(4, "ORDER BY embedding <-> " + Placeholder)) == 1
  {
    LineWithPlaceholder(4, "ORDER BY embedding <-> ", "");
    assert "ORDER BY embedding <-> " + Placeholder + "" == "ORDER BY embedding <-> " + Placeholder;
  }

  /** `retrieve_top_chunks(embedding, top_k=3)`: the first column (the chunk
      text) of every selected row, in the store's order. A failing store call
      propagates; a row without columns raises `IndexError`. */
  function RetrieveTopChunks(db: Store, render: real -> string, embedding: Vector,
                             topK: int := DefaultTopK): (r: Result<seq<Value>>)
    ensures var answer := db(ChunkQuery(embedding, render, topK));
      (answer.Err? ==> r == Err(answer.error)) &&
      (answer.Ok? ==>
         (r.Ok? <==> forall i :: 0 <= i < |answer.value| ==> |answer.value[i]| > 0) &&
         (r.Ok? ==> |r.value| == |answer.value| &&
                    forall i :: 0 <= i < |r.value| ==> r.value[i] == answer.value[i][0]))
  {
    match db(ChunkQuery(embedding, render, topK))
    case Err(e) => Err(e)
    case Ok(rows) =>
      if exists i :: 0 <= i < |rows| && |rows[i]| == 0 then Err(Error("tuple index out of range"))
      else Ok(seq(|rows|, i requires 0 <= i < |rows| => rows[i][0]))
  }

  // ---------------------------------------------------------------- answer

  const SystemInstruction := "You are a helpful assistant."

  const PromptPreamble := "You are an expert research assistant. Use the context below to answer the question."

  const ContextHeading := "\n\nContext:\n"

  const QuestionHeading := "\n\nQuestion: "

  const AnswerCue := "\n\nAnswer:"

  const ChunkSeparator := "\n\n"

  /** The index of the first `None` among the values. */
  function FirstNone(vs: seq<Value>): (k: nat)
    requires NoneValue in vs
    ensures k < |vs| && vs[k] == NoneValue && forall j :: 0 <= j < k ==> vs[j] != NoneValue
  {
    if vs[0] == NoneValue then 0 else FirstNone(vs[1..]) + 1
  }

  /** The texts of the values as `str.join` takes them: every item must be a
      `str`; the first `None` raises `TypeError`. */
  function TextItems(vs: seq<Value>): (r: Result<seq<string>>)
    ensures r.Ok? <==> NoneValue !in vs
    ensures r.Ok? ==> |r.value| == |vs| && forall i :: 0 <= i < |vs| ==> vs[i] == StrValue(r.value[i])
    ensures r.Err? ==>
              r.error == Error("sequence item " + Decimal(FirstNone(vs)) + ": expected str instance, NoneType found")
  {
    if NoneValue in vs then
      Err(Error("sequence item " + Decimal(FirstNone(vs)) + ": expected str instance, NoneType found"))
    else
      var texts := seq(|vs|, i requires 0 <= i < |vs| => vs[i].s);
      assert forall i :: 0 <= i < |vs| ==> vs[i] == StrValue(texts[i]) by {
        forall i | 0 <= i < |vs| ensures vs[i] == StrValue(texts[i]) {
          assert vs[i] in vs;
        }
      }
      Ok(texts)
  }

  /** The prompt text for a question and its context. */
  function GptPrompt(query: string, context: string): string {
    PromptPreamble + ContextHeading + context + QuestionHeading + query + AnswerCue
  }

  /** `generate_gpt_answer(query, chunks)`: join the chunks with a blank line,
      place them and the question in the prompt, and send it as the user
      message after the fixed system message. */
  function GenerateGptAnswer(query: string, chunks: seq<Value>, chat: ChatModel): (r: Result<string>)
    ensures TextItems(chunks).Err? ==> r == Err(TextItems(chunks).error)
    ensures TextItems(chunks).Ok? ==>
              r == chat([Message("system", SystemInstruction),
                         Message("user", GptPrompt(query, Join(ChunkSeparator, TextItems(chunks).value)))])
  {
    match TextItems(chunks)
    case Err(e) => Err(e)
    case Ok(texts) =>
      var context := Join(ChunkSeparator, texts);
      chat([Message("system", SystemInstruction), Message("user", GptPrompt(query, context))])
  }

  /** Chunk `i` stands in the prompt where the context starts plus its offset in
      the join, so the chunks appear whole and in retrieval order, a blank line
      apart. */
  lemma PromptHoldsChunkAt(query: string, chunks: seq<string>, i: nat)
    requires i < |chunks|
    ensures var start := |PromptPreamble + ContextHeading| + Offset(ChunkSeparator, chunks, i);
      var prompt := GptPrompt(query, Join(ChunkSeparator, chunks));
      start + |chunks[i]| <= |prompt| && prompt[start .. start + |chunks[i]|] == chunks[i]
  {
    var head := PromptPreamble + ContextHeading;
    var tail := QuestionHeading + query + AnswerCue;
    Regroup(PromptPreamble, ContextHeading, Join(ChunkSeparator, chunks), QuestionHeading, query, AnswerCue);
    ItemBetween(head, ChunkSeparator, chunks, tail, i);
  }

  /** The question stands right after the context and its heading, and the
      prompt ends with the answer cue. */
  lemma PromptHoldsQuery(query: string, context: string)
    ensures var start := |PromptPreamble + ContextHeading + context + QuestionHeading|;
      var prompt := GptPrompt(query, context);
      |prompt| == start + |query| + |AnswerCue| &&
      prompt[start .. start + |query|] == query &&
      prompt[start + |query| ..] == AnswerCue
  {
    var front := PromptPreamble + ContextHeading + context + QuestionHeading;
    SliceOfMiddle(front, query, AnswerCue, 0, |query|);
    Regroup(PromptPreamble, ContextHeading, context, QuestionHeading, query, AnswerCue);
  }

  // ---------------------------------------------------------------- endpoint

  /** The stages of a request, in the order the endpoint runs them. */
  datatype Stage = Embedding | Retrieval | Answering

  /** The endpoint's reply: the full record on success, only the error otherwise. */
  datatype Response = Answered(query: string, answer: string, chunksUsed: seq<Value>) | Failed(error: string)

  /** `POST /generate`: embed, retrieve with the default `top_k`, then answer;
      the first stage that raises ends the request with `{"error": str(e)}`,
      and the stages after it are not run. `stages` lists the stages started. */
  method Generate(query: string, embed: string -> Result<Vector>, render: real -> string,
                  db: Store, chat: ChatModel)
    returns (response: Response, stages: seq<Stage>)
    ensures var e := embed(query);
      if e.Err? then response == Failed(e.error.message) && stages == [Embedding]
      else
        var c := RetrieveTopChunks(db, render, e.value, 3);
        if c.Err? then response == Failed(c.error.message) && stages == [Embedding, Retrieval]
        else
          var a := GenerateGptAnswer(query, c.value, chat);
          stages == [Embedding, Retrieval, Answering] &&
          response == if a.Err? then Failed(a.error.message) else Answered(query, a.value, c.value)
  {
    stages := [Embedding];
    var embedding := embed(query);
    if embedding.Err? {
      return Failed(embedding.error.message), stages;
    }
    stages := stages + [Retrieval];
    var chunks := RetrieveTopChunks(db, render, embedding.value);
    if chunks.Err? {
      return Failed(chunks.error.message), stages;
    }
    stages := stages + [Answering];
    var answer := GenerateGptAnswer(query, chunks.value, chat);
    if answer.Err? {
      return Failed(answer.error.message), stages;
    }
    response := Answered(query, answer.value, chunks.value);
  }
}
