/** The stand-alone question-answering script: embed a question, fetch the
    nearest (title, summary, chunk) rows, place their chunk texts in a prompt
    and ask the chat model. A failing retrieval is reported and treated as
    "no rows"; every other failure ends the script. */
module RagScript {
  import opened Common
  import opened Text
  import opened Sql

  const DefaultTopK := 3

  // ---------------------------------------------------------------- retrieval

  /** The triple-quoted query text of `retrieve_top_chunks`. */
  function TopChunksQueryText(): string {
    Line(12, "SELECT title, summary, chunk") + Line(12, "FROM papers") +
    Line(12, "ORDER BY embedding <-> " + Placeholder + "::vector") +
    Line(12, "LIMIT " + Placeholder + ";") + Line(8, "")
  }

  /** Here `top_k` is bound to the second placeholder, not spliced into the text. */
  function TopChunksQuery(queryVector: Vector, topK: int): Query {
    Query(TopChunksQueryText(), [VectorParam(queryVector), IntParam(topK)])
  }

  /** Both placeholders are bound: the vector and the limit. */
  lemma TopChunksQueryBinds(queryVector: Vector, topK: int)
    ensures Binds(TopChunksQuery(queryVector, topK))
  {
    LineWithoutPlaceholder(12, "SELECT title, summary, chunk");
    LineWithoutPlaceholder(12, "FROM papers");
    LineWithPlaceholder(12, "ORDER BY embedding <-> ", "::vector");
    LineWithPlaceholder(12, "LIMIT ", ";");
    LineWithoutPlaceholder(8, "");
    PlaceholdersNone("");
    PlaceholdersOfLines("", Line(12, "SELECT title, summary, chunk"), Line(12, "FROM papers"),
                        Line(12, "ORDER BY embedding <-> " + Placeholder + "::vector"),
                        Line(12, "LIMIT " + Placeholder + ";"), Line(8, ""));
    assert "" + Line(12, "SELECT title, summary, chunk") == Line(12, "SELECT title, summary, chunk");
  }

  /** `retrieve_top_chunks(query_vector, top_k=3)`: the selected rows, or no
      rows at all when the database call raises. */
  function RetrieveTopChunks(db: Store, queryVector: Vector, topK: int := DefaultTopK): (rows: seq<Row>)
    ensures var answer := db(TopChunksQuery(queryVector, topK));
      (answer.Ok? ==> rows == answer.value) && (answer.Err? ==> rows == [])
  {
    match db(TopChunksQuery(queryVector, topK))
    case Ok(selected) => selected
    case Err(_) => []
  }

  // ---------------------------------------------------------------- prompt

  /** `f"{chunk}"` on a nullable text column. */
  function ValueText(v: Value): (r: string)
    ensures v.StrValue? ==> r == v.s
    ensures v.NoneValue? ==> r == "None"
  {
    match v
    case NoneValue => "None"
    case StrValue(s) => s
  }

  /** The `ValueError` of unpacking a row of `n` values into three names. */
  function UnpackError(n: nat): Error {
    if n < 3 then Error("not enough values to unpack (expected 3, got " + Decimal(n) + ")")
    else Error("too many values to unpack (expected 3)")
  }

  predicate IsTriple(row: Row) {
    |row| == 3
  }

  /** The index of the first row that is not a triple. */
  function FirstMisshapen(rows: seq<Row>): (k: nat)
    requires exists i :: 0 <= i < |rows| && !IsTriple(rows[i])
    ensures k < |rows| && !IsTriple(rows[k]) && forall j :: 0 <= j < k ==> IsTriple(rows[j])
  {
    if !IsTriple(rows[0]) then 0
    else
      assert exists i :: 0 <= i < |rows[1..]| && !IsTriple(rows[1..][i]) by {
        var i :| 0 <= i < |rows| && !IsTriple(rows[i]);
        assert rows[1..][i - 1] == rows[i];
      }
      FirstMisshapen(rows[1..]) + 1
  }

  /** `[f"{chunk}" for (_, _, chunk) in chunks]`: the texts of the third
      fields, in row order; the first row that is not a triple raises. */
  function ChunkTexts(rows: seq<Row>): (r: Result<seq<string>>)
    ensures r.Ok? <==> forall i :: 0 <= i < |rows| ==> IsTriple(rows[i])
    ensures r.Ok? ==> |r.value| == |rows| &&
                      forall i :: 0 <= i < |rows| ==> r.value[i] == ValueText(rows[i][2])
    ensures r.Err? ==> r.error == UnpackError(|rows[FirstMisshapen(rows)]|)
  {
    if |rows| == 0 then Ok([])
    else if !IsTriple(rows[0]) then Err(UnpackError(|rows[0]|))
    else
      var rest := ChunkTexts(rows[1..]);
      assert forall i :: 1 <= i < |rows| ==> rows[i] == rows[1..][i - 1];
      if rest.Err? then Err(rest.error)
      else Ok([ValueText(rows[0][2])] + rest.value)
  }

  const ContextSeparator := "\n---\n"

  const Intro := "You are an assistant helping scientists summarise research.\n\n"

  const ContextLabel := "Context:\n"

  const QuestionSection := "\n\nQuestion:\n"

  const AnswerSection := "\n\nAnswer:"

  /** The prompt around a context text. */
  function ScriptPrompt(query: string, context: string): string {
    Intro + ContextLabel + context + QuestionSection + query + AnswerSection
  }

  /** `build_prompt(query, chunks)` */
  function BuildPrompt(query: string, chunks: seq<Row>): (r: Result<string>)
    ensures ChunkTexts(chunks).Err? ==> r == Err(ChunkTexts(chunks).error)
    ensures ChunkTexts(chunks).Ok? ==>
              r == Ok(ScriptPrompt(query, Join(ContextSeparator, ChunkTexts(chunks).value)))
  {
    match ChunkTexts(chunks)
    case Err(e) => Err(e)
    case Ok(texts) => Ok(ScriptPrompt(query, Join(ContextSeparator, texts)))
  }

  /** Only the third field of each row reaches the prompt: rows of the same
      shapes whose third fields agree give the same prompt, or the same error. */
  lemma {:induction false} ChunkTextsUseOnlyThirdField(a: seq<Row>, b: seq<Row>)
    requires |a| == |b|
    requires forall i :: 0 <= i < |a| ==> |a[i]| == |b[i]|
    requires forall i :: 0 <= i < |a| && IsTriple(a[i]) ==> a[i][2] == b[i][2]
    ensures ChunkTexts(a) == ChunkTexts(b)
  {
    if |a| > 0 {
      ChunkTextsUseOnlyThirdField(a[1..], b[1..]);
    }
  }

  lemma BuildPromptUsesOnlyThirdField(query: string, a: seq<Row>, b: seq<Row>)
    requires |a| == |b|
    requires forall i :: 0 <= i < |a| ==> |a[i]| == |b[i]|
    requires forall i :: 0 <= i < |a| && IsTriple(a[i]) ==> a[i][2] == b[i][2]
    ensures BuildPrompt(query, a) == BuildPrompt(query, b)
  {
    ChunkTextsUseOnlyThirdField(a, b);
  }

  /** The prompt is the introduction and the context label, then the context,
      then the question section, the question and the answer cue. */
  lemma PromptSections(query: string, context: string)
    ensures var prompt := ScriptPrompt(query, context);
      var start := |Intro + ContextLabel|;
      var rest := QuestionSection + query + AnswerSection;
      |prompt| == start + |context| + |rest| &&
      prompt[..start] == Intro + ContextLabel &&
      prompt[start .. start + |context|] == context &&
      prompt[start + |context| ..] == rest
  {
    var head := Intro + ContextLabel;
    var rest := QuestionSection + query + AnswerSection;
    Regroup(Intro, ContextLabel, context, QuestionSection, query, AnswerSection);
    SliceOfMiddle(head, context, rest, 0, |context|);
    assert (head + context + rest)[..|head|] == head;
    assert (head + context + rest)[|head| + |context| ..] == rest;
  }

  /** Chunk text `i` stands whole in the prompt, at the start of the context
      plus its offset in the `"\n---\n"` join: the chunks appear in row order
      (`ChunkTexts` gives text `i` as row `i`'s third field, and `BuildPrompt`
      puts the joined texts in this prompt). */
  lemma PromptHoldsChunkAt(query: string, texts: seq<string>, i: nat)
    requires i < |texts|
    ensures var start := |Intro + ContextLabel| + Offset(ContextSeparator, texts, i);
      var prompt := ScriptPrompt(query, Join(ContextSeparator, texts));
      start + |texts[i]| <= |prompt| && prompt[start .. start + |texts[i]|] == texts[i]
  {
    var head := Intro + ContextLabel;
    var tail := QuestionSection + query + AnswerSection;
    Regroup(Intro, ContextLabel, Join(ContextSeparator, texts), QuestionSection, query, AnswerSection);
    ItemBetween(head, ContextSeparator, texts, tail, i);
  }

  /** Between chunk texts `i` and `i + 1` the prompt holds exactly the separator. */
  lemma PromptSeparatorAfterChunk(query: string, texts: seq<string>, i: nat)
    requires i + 1 < |texts|
    ensures var end := |Intro + ContextLabel| + Offset(ContextSeparator, texts, i) + |texts[i]|;
      var prompt := ScriptPrompt(query, Join(ContextSeparator, texts));
      end + |ContextSeparator| <= |prompt| && prompt[end .. end + |ContextSeparator|] == ContextSeparator
  {
    var head := Intro + ContextLabel;
    var tail := QuestionSection + query + AnswerSection;
    Regroup(Intro, ContextLabel, Join(ContextSeparator, texts), QuestionSection, query, AnswerSection);
    SeparatorBetween(head, ContextSeparator, texts, tail, i);
  }

  /** No rows give an empty context; the question and answer sections remain. */
  lemma EmptyRowsPrompt(query: string)
    ensures BuildPrompt(query, []) == Ok(Intro + ContextLabel + QuestionSection + query + AnswerSection)
  {
    assert Join(ContextSeparator, []) == "";
    assert Intro + ContextLabel + "" == Intro + ContextLabel;
  }

  // ---------------------------------------------------------------- script

  /** `generate_answer(prompt)`: the prompt is the only, user, message. */
  function GenerateAnswer(prompt: string, chat: ChatModel): Result<string> {
    chat([Message("user", prompt)])
  }

  /** The script's run for a question: embed it (a failure ends the run),
      retrieve three rows (a failure gives none), build the prompt (a row that
      is not a triple ends the run) and ask the chat model. */
  function AskQuestion(query: string, embed: string -> Result<Vector>, db: Store, chat: ChatModel): (r: Result<string>)
    ensures embed(query).Err? ==> r == Err(embed(query).error)
    ensures embed(query).Ok? ==>
              var prompt := BuildPrompt(query, RetrieveTopChunks(db, embed(query).value, 3));
              r == if prompt.Err? then Err(prompt.error) else chat([Message("user", prompt.value)])
  {
    match embed(query)
    case Err(e) => Err(e)
    case Ok(queryVector) =>
      match BuildPrompt(query, RetrieveTopChunks(db, queryVector))
      case Err(e) => Err(e)
      case Ok(prompt) => GenerateAnswer(prompt, chat)
  }

  /** A failing database does not end the run: the chat model is still asked,
      with the empty-context prompt. */
  lemma RetrievalFailureStillAsks(query: string, embed: string -> Result<Vector>, db: Store, chat: ChatModel)
    requires embed(query).Ok?
    requires db(TopChunksQuery(embed(query).value, DefaultTopK)).Err?
    ensures AskQuestion(query, embed, db, chat) ==
            chat([Message("user", Intro + ContextLabel + QuestionSection + query + AnswerSection)])
  {
    EmptyRowsPrompt(query);
  }
}
