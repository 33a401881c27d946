# rag-from-scratch-with-options, modelled in Dafny

This project models the deterministic layer of a small retrieval-augmented
generation (RAG) service. The layer sits around its OpenAI and PostgreSQL calls.

- **Source-scoped retrieval** (`src/retrieval`). It decides whether a source
  filter applies and builds the parameterised nearest-neighbour query. It
  orders the parameters to match the `%s` placeholders, and turns each row
  into a `{text, source}` record.
- **The `/generate` endpoint** (`src/main.py`). It renders the query vector
  literal, projects the selected rows to their chunk text, and assembles the
  prompt. The request either succeeds or returns an error-only reply.
- **The command-line RAG script** (`retrieval/generate_answer.py`). It
  retrieves with a fallback to no rows, builds the prompt from the third field
  of each `(title, summary, chunk)` row, and asks the chat model.
- **The four ingestion scripts.** Each turns its input into rows of the
  `papers` table under its own rules:
  - which files are read;
  - defaults and stripping;
  - skipped papers;
  - chunk = summary;
  - the `source` tag;
  - commit per row or per paper;
  - what a failure does.
- **Two reporting helpers.** One is the source histogram of
  `scripts/source_summary.py`. The other is the required-column check of
  `check_schema.py`.

The external services are parameters, all deterministic functions of their
input:

- the embedding service (`string -> Result<Vector>`);
- the chat model (`seq<Message> -> Result<string>`);
- the database query (`Query -> Result<seq<Row>>`);
- `str` on a float or on a tuple.

A service that raises returns `Err`.

The table the ingestion scripts write is a class, `Store.PapersTable`. Its
fields are:

- the committed rows;
- the rows of the open transaction;
- a predicate saying which rows the database accepts.

Whether a `psycopg2.connect` call reaches the database is an argument of
`Store.PapersTable.Connect`, given anew for every call. A script that connects
once takes one such outcome; `ingestion/ingest_synthetic.py`, which connects
once per paper, takes one per paper.

Each ingestion script has two layers:

- **a pure plan**: the rows it decides to insert, under its own rules;
- **an imperative loop**: a `while` loop that embeds and inserts those rows,
  proved against a specification function.

The specification of a commit-per-row run is `Store.Execute`: rows are
inserted in order up to the first that fails.

Files:

| file | models |
|---|---|
| `common.dfy` | `Option`, `Result`, nullable text values, vectors, chat messages |
| `text.dfy` | Python `str.join`, `split`, `strip`, `endswith`, `str(int)`, `%s` counting |
| `sql.dfy` | parameterised queries and the layout of triple-quoted query texts |
| `chunk_utils.dfy` | `src/retrieval/chunk_utils.py` |
| `retrieve_chunks.dfy` | `src/retrieval/retrieve_chunks.py` |
| `api.dfy` | `src/main.py`, lines 75-177 |
| `generate_answer.dfy` | `retrieval/generate_answer.py` |
| `store.dfy` | the `papers` table, `insert_paper`, row-by-row runs |
| `documents.dfy` | the directory listing and the file/paper loops shared by the `src/ingestion` scripts |
| `synthetic_ingest.dfy` | `src/ingestion/ingest_synthetic.py` |
| `tutor_ingest.dfy` | `src/ingestion/ingest_tutor.py` |
| `arxiv_ingest.dfy` | `src/ingestion/ingest_arxiv_api.py` |
| `batch_ingest.dfy` | `ingestion/ingest_synthetic.py` |
| `source_summary.dfy` | `scripts/source_summary.py` |
| `check_schema.dfy` | `check_schema.py` |

## Behaviour of the code worth noting

- **A NULL `source` is passed through.** For a `(chunk, source)` row,
  `format_chunk` returns the column's value, `None`. Only
  `scripts/source_summary.py` reads a NULL or empty `source` value as
  "unknown". (`format_chunk` gives the source "unknown" only to a row that is
  not a pair.)
- **A failed chunk ends its unit of work.**
  - The `src/ingestion` scripts catch nothing. The first failing embedding or
    insert ends the run, and the rows committed before it stay.
  - `ingestion/ingest_synthetic.py` drops the whole failing paper, because its
    rows share one transaction. A failed connection drops only its paper too.
    The loop then goes on with the next paper, which connects again.
- **An empty context gets no special prompt.** Both prompt builders produce
  the usual template around an empty context.
- **`top_k` is not validated.**
  - `src/retrieval/retrieve_chunks.py` and `src/main.py` splice `str(top_k)`
    into the query text.
  - `retrieval/generate_answer.py` binds it as a parameter.
- **The command-line script swallows retrieval errors.** A failing query gives
  no rows, and the prompt is still built and sent.

## Model

| member | source | states |
|---|---|---|
| ChunkUtils.FormatChunk | src/retrieval/chunk_utils.py:1-8 | the record has exactly the keys "text" and "source"; a 2-tuple gives its two fields; any other row gives `str(row)` and source "unknown" |
| SourceRetrieval.FilterApplies | src/retrieval/retrieve_chunks.py:11 | no filter exactly when `source_filter` is None, "" or "all"; any other value filters |
| SourceRetrieval.BuildQuery | src/retrieval/retrieve_chunks.py:8-21 | the reassigned clause and parameter list, reversed when there is a WHERE clause, give the expected query: filter value first, then embedding |
| SourceRetrieval.QueryBindsEveryPlaceholder | src/retrieval/retrieve_chunks.py:9-21 | the number of `%s` in the query text equals the number of parameters passed: 2 with a filter, 1 without |
| SourceRetrieval.FilteredQueryLayout | src/retrieval/retrieve_chunks.py:12-21 | with a filter, the text is `... WHERE source = %s ... ORDER BY embedding <-> %s::vector LIMIT str(top_k);`, with no other placeholder, and the filter value is bound to the WHERE placeholder (exact equality) |
| SourceRetrieval.UnfilteredQueryLayout | src/retrieval/retrieve_chunks.py:8-21 | without a filter, the only placeholder is the distance operand and it receives the embedding |
| SourceRetrieval.QueryTextIgnoresFilterValue | src/retrieval/retrieve_chunks.py:11-21 | the filter value never reaches the query text: any two values that both filter give the same text |
| SourceRetrieval.RetrieveTopChunks | src/retrieval/retrieve_chunks.py:4-27 | `format_chunk` mapped over the selected rows, same length and order (columns chunk and source only, `top_k` defaulting to 5); a failing store call propagates its error |
| Text.ParseDecimal | src/retrieval/retrieve_chunks.py:20 | `str(top_k)`, as spliced into the LIMIT line, reads back as `top_k` |
| Sql.LimitLineWithoutPlaceholder | src/retrieval/retrieve_chunks.py:20 | the LIMIT line never holds a placeholder, whatever integer `top_k` is |
| Api.EmbeddingLiteralCommas | src/main.py:124 | a vector of n >= 1 components gives a literal with exactly n - 1 commas, when no rendered component holds a comma |
| Api.EmbeddingLiteralRoundTrip | src/main.py:124 | the literal starts with "[" and ends with "]", and splitting its inside at the commas gives back the rendered components in order |
| Api.ChunkQueryBinds | src/main.py:126-133 | the endpoint's query has one placeholder and one parameter, the vector literal |
| Api.RetrieveTopChunks | src/main.py:120-137 | the first column of every selected row, same length and order, `top_k` defaulting to 3; a store error propagates; a row without columns raises |
| Api.TextItems | src/main.py:141 | `str.join` accepts the chunks only when none is NULL; the first NULL raises `TypeError` |
| Api.GenerateGptAnswer | src/main.py:140-158 | the chat model receives the fixed system message, then the user prompt built from the chunks joined with "\n\n"; a NULL chunk raises first |
| Api.PromptHoldsChunkAt | src/main.py:141-149 | chunk i appears whole in the prompt at the context start plus its join offset, so the chunks appear in retrieval order |
| Api.PromptHoldsQuery | src/main.py:142-149 | the query follows the context and "\n\nQuestion: ", and the prompt ends with "\n\nAnswer:" |
| Api.Generate | src/main.py:161-176 | embed, then retrieve with the default `top_k`, then answer. Success gives `query`, `answer` and `chunks_used` exactly; the first failing stage gives only its error, and no later stage runs |
| RagScript.TopChunksQueryBinds | retrieval/generate_answer.py:35-40 | the script's query has two placeholders and two parameters, the query vector and `top_k` |
| RagScript.RetrieveTopChunks | retrieval/generate_answer.py:30-49 | the selected rows, or no rows at all when the database call raises |
| RagScript.ValueText | retrieval/generate_answer.py:53 | `f"{chunk}"` is the text itself, or "None" for NULL |
| RagScript.ChunkTexts | retrieval/generate_answer.py:53 | the third field of every row, in order, when every row is a triple; otherwise the unpacking error of the first row that is not |
| RagScript.BuildPrompt | retrieval/generate_answer.py:52-60 | the template around the chunk texts joined with "\n---\n", or the unpacking error |
| RagScript.ChunkTextsUseOnlyThirdField | retrieval/generate_answer.py:53 | rows of the same shapes whose third fields agree give the same chunk texts or the same error |
| RagScript.BuildPromptUsesOnlyThirdField | retrieval/generate_answer.py:53-59 | titles and summaries never reach the prompt |
| RagScript.PromptSections | retrieval/generate_answer.py:54-59 | the prompt is the assistant line and "Context:\n", then the context, then "\n\nQuestion:\n", the query and "\n\nAnswer:" |
| RagScript.PromptHoldsChunkAt | retrieval/generate_answer.py:53-59 | chunk i's text appears whole in the prompt at the context start plus its join offset, in the order received |
| RagScript.PromptSeparatorAfterChunk | retrieval/generate_answer.py:53 | exactly "\n---\n" stands between consecutive chunk texts in the prompt |
| RagScript.EmptyRowsPrompt | retrieval/generate_answer.py:53-59 | no rows give an empty context, and the question and answer sections remain |
| RagScript.AskQuestion | retrieval/generate_answer.py:73-89 | the script's run: an embedding failure ends it; otherwise the prompt built from the retrieved rows is the only user message |
| RagScript.RetrievalFailureStillAsks | retrieval/generate_answer.py:44-83 | a failing database does not stop the run: the chat model is asked with the empty-context prompt |
| Store.PapersTable.Connect | src/ingestion/ingest_tutor.py:37 | a reachable database opens an empty transaction; an unreachable one raises and changes nothing; the outcome is given per call |
| Store.PapersTable.Insert | src/ingestion/ingest_tutor.py:28-32 | an accepted row joins the open transaction; a refused one raises and adds nothing |
| Store.PapersTable.Commit | src/ingestion/ingest_tutor.py:33 | the open transaction's rows are appended to the committed rows |
| Store.PapersTable.Close | ingestion/ingest_synthetic.py:68-72 | closing without a commit discards the open transaction |
| Store.InsertPaper | src/ingestion/ingest_tutor.py:27-33 | `insert_paper` commits the row at once, or raises with nothing committed |
| Store.Execute | src/ingestion/ingest_synthetic.py:30-52 | rows are inserted one at a time, in order, up to the first failing one; the run is complete exactly when every row was inserted |
| Store.ExecuteStopsAtFirstFailure | src/ingestion/ingest_synthetic.py:38-54 | every inserted row is its planned row with its chunk's embedding; an incomplete run stops at a row whose embedding or insert fails |
| Store.ExecuteAppend | src/ingestion/ingest_synthetic.py:38-54 | running two plans in turn is running their concatenation; the second runs only if the first completed |
| Store.ExecuteAllAccepted | src/ingestion/ingest_synthetic.py:50-52 | with no failing embedding or insert, every planned row is inserted |
| Store.InsertEach | src/ingestion/ingest_synthetic.py:50-52 | the loop of `insert_paper` calls commits exactly the rows of the run, stopping at the first failure |
| Store.InsertPlanned | src/ingestion/ingest_synthetic.py:51-52 | one embed-then-insert step: commits the row, or fails with nothing changed |
| Store.ChunkRows | src/ingestion/ingest_synthetic.py:50-52 | one row per chunk, in chunk order, each with the paper's title and summary |
| Store.RunEachIsExecute | src/ingestion/ingest_synthetic.py:46-52 | the loop over papers runs the concatenation of their planned rows |
| Store.RunEachStopped | src/ingestion/ingest_synthetic.py:46-52 | once a paper fails, the papers after it change nothing |
| Documents.PapersRead | src/ingestion/ingest_synthetic.py:43-46 | a ".json" file contributes all its papers; any other file contributes none |
| Documents.JsonPapersMember | src/ingestion/ingest_synthetic.py:42-46 | a paper is visited exactly when it belongs to a ".json" file |
| Documents.PlannedFromJsonFile | src/ingestion/ingest_tutor.py:41 | every planned row comes from a paper of a ".json" file |
| Documents.JsonFileRowPlanned | src/ingestion/ingest_tutor.py:41-44 | every row planned for a paper of a ".json" file is in the plan |
| Documents.RunFilesIsExecute | src/ingestion/ingest_synthetic.py:42-52 | the loop over files and papers runs the concatenated plan in listing, paper and row order |
| Documents.RunFilesStopped | src/ingestion/ingest_synthetic.py:42-52 | once a file fails, the files after it change nothing |
| Documents.IngestFiles | src/ingestion/ingest_synthetic.py:42-53 | the loop over the listing commits exactly the rows of the run over the files |
| Documents.IngestFile | src/ingestion/ingest_synthetic.py:43-45 | a ".json" file has its papers ingested; any other file is skipped |
| Documents.IngestPapers | src/ingestion/ingest_synthetic.py:46-53 | the loop over one file's papers commits exactly the rows of the run over them |
| SyntheticIngest.SyntheticPaperRows | src/ingestion/ingest_synthetic.py:47-52 | one row per chunk, in order, with title and summary unstripped (defaulting to ""), no source; a missing chunks key gives no row |
| SyntheticIngest.LoadAndInsertAll | src/ingestion/ingest_synthetic.py:38-55 | an unreachable database commits nothing; otherwise the committed rows grow by the run of the plan, and those before a failure stay committed |
| SyntheticIngest.SyntheticRowsComeFromChunks | src/ingestion/ingest_synthetic.py:43-52 | every row is a chunk of a paper of a ".json" file, with that paper's title and summary and no source |
| SyntheticIngest.SyntheticPlansEveryChunk | src/ingestion/ingest_synthetic.py:43-52 | every chunk of every paper of a ".json" file is planned |
| SyntheticIngest.SyntheticPlanLength | src/ingestion/ingest_synthetic.py:49-52 | the plan has as many rows as the papers have chunks |
| TutorIngest.TutorPaperRows | src/ingestion/ingest_tutor.py:46-54 | no row when the stripped summary is empty; otherwise one row of stripped title and summary, chunk = summary, tag "tutor" |
| TutorIngest.IngestTutorData | src/ingestion/ingest_tutor.py:35-58 | an unreachable database commits nothing; otherwise the committed rows grow by the run of the plan, one commit per row |
| TutorIngest.TutorPaperRowIsStrippedSummary | src/ingestion/ingest_tutor.py:46-54 | a paper's row has a non-empty summary that is also its chunk, stripped title and summary, and tag "tutor" |
| TutorIngest.TutorRowsAreStrippedSummaries | src/ingestion/ingest_tutor.py:38-54 | every planned row has a non-empty stripped summary as its chunk and tag "tutor" |
| TutorIngest.TutorKeepsNonEmptySummaries | src/ingestion/ingest_tutor.py:41-54 | every paper of a ".json" file whose stripped summary is non-empty is planned |
| TutorIngest.TutorReadsOnlyJsonFiles | src/ingestion/ingest_tutor.py:41 | every planned row comes from a paper of a ".json" file |
| Text.StripEnds | src/ingestion/ingest_tutor.py:46-47 | `strip()` leaves no leading or trailing whitespace |
| Text.StripSlice | src/ingestion/ingest_tutor.py:46-47 | `strip()` is a contiguous slice, and everything cut on either side is whitespace |
| Text.StripEmptyIff | src/ingestion/ingest_tutor.py:49 | the stripped text is empty exactly when every character is whitespace |
| Text.StripIdempotent | src/ingestion/ingest_tutor.py:46-47 | stripping twice is stripping once |
| ArxivIngest.EntryRow | src/ingestion/ingest_arxiv_api.py:58-62 | title and summary as received, chunk = summary, tag "arxiv" |
| ArxivIngest.ArxivPlan | src/ingestion/ingest_arxiv_api.py:57-63 | one planned row per entry, in entry order |
| ArxivIngest.IngestArxivData | src/ingestion/ingest_arxiv_api.py:52-66 | an unreachable database commits nothing; otherwise the committed rows grow by the run of the plan, one commit per row |
| ArxivIngest.ArxivRowsFollowEntries | src/ingestion/ingest_arxiv_api.py:57-63 | inserted row i is entry i's title and summary, its summary as chunk and embedding, and tag "arxiv" |
| ArxivIngest.ArxivOneRowPerEntry | src/ingestion/ingest_arxiv_api.py:57-63 | with no failure, exactly one row per entry |
| BatchIngest.PaperRows | ingestion/ingest_synthetic.py:55-61 | one row per chunk, in chunk order, with the paper's title and summary unchanged and no source |
| BatchIngest.PaperAllOrNothing | ingestion/ingest_synthetic.py:50-72 | a paper is committed whole (one row per chunk, in order) or not at all |
| BatchIngest.InsertIntoDb | ingestion/ingest_synthetic.py:50-72 | the paper's rows are committed only when its own connection opens and every chunk is embedded and inserted; otherwise the transaction is rolled back |
| BatchIngest.InsertAll | ingestion/ingest_synthetic.py:50-77 | the loop commits each paper's own commits, paper after paper, in list order, paper i connecting anew with its own outcome; the open transaction is empty once any paper connected |
| BatchIngest.Run | ingestion/ingest_synthetic.py:22-39 | the script ingests the built-in papers in list order |
| BatchIngest.BatchCommitsAppend | ingestion/ingest_synthetic.py:66-77 | two lists ingested in turn commit what each commits alone, so a failure does not reach other papers |
| BatchIngest.FailureDoesNotStopLaterPapers | ingestion/ingest_synthetic.py:66-77 | paper k's commits stand between those of the papers before and after it, whatever those did, a failed connection included |
| BatchIngest.RerunDuplicatesRows | ingestion/ingest_synthetic.py:58-61 | with no duplicate check, two runs commit what each commits alone, so a row both commit is there twice |
| BatchIngest.SyntheticPapersAllCommitted | ingestion/ingest_synthetic.py:22-39 | with both connections open and no failure, four rows: the first paper's two chunks, then the second paper's two |
| BatchIngest.FirstConnectFailsSecondCommits | ingestion/ingest_synthetic.py:50-77 | when only the second paper's connection opens, exactly its two rows are committed: the first paper's failed connect is caught and the loop goes on |
| SourceSummary.Label | scripts/source_summary.py:22 | NULL and "" become "unknown"; any other source is its own label |
| SourceSummary.Labels | scripts/source_summary.py:21-22 | one label per row, in order; a row without columns raises |
| SourceSummary.TallyCounts | scripts/source_summary.py:23 | the `Counter` lists each label once; it counts each label as often as it occurs, and the counts sum to the number of labels |
| SourceSummary.TallyFirstAppearance | scripts/source_summary.py:23-26 | the `Counter` lists its labels in order of first appearance among the labels, the order `counts.items()` yields them: of two listed labels, the one first seen earlier comes first |
| SourceSummary.CountsIgnoreOrder | scripts/source_summary.py:23 | the counts depend only on how often each label occurs |
| SourceSummary.Count | scripts/source_summary.py:23 | the counting loop builds the `Counter` of the labels |
| SourceSummary.CountSources | scripts/source_summary.py:16-31 | the breakdown of the selected sources, or the caught error of the query or of the label mapping |
| SourceSummary.BreakdownCountsEveryRow | scripts/source_summary.py:21-26 | one entry per distinct label, each row counted once, every entry's label coming from some row |
| CheckSchema.Missing | check_schema.py:19 | the missing set is within the required set: exactly the required names absent from the listed columns |
| CheckSchema.Check | check_schema.py:19-23 | "looks good" exactly when every required column is present; otherwise the (non-empty) missing set |
| CheckSchema.RequiredColumns | check_schema.py:17 | the required set is exactly "chunk", "summary" and "embedding" |
| CheckSchema.ExtraColumnsIgnored | check_schema.py:19 | extra columns are never reported and never change the verdict |
| CheckSchema.VerdictIgnoresOrderAndDuplicates | check_schema.py:16-19 | the verdict depends only on which names occur, not on their order or repetition |
| CheckSchema.AllRequiredPasses | check_schema.py:17-23 | a table holding the three required columns passes |

## Left out

- **Nearest-neighbour ranking and `LIMIT`.** Both are the database's work. The
  store is an abstract function from a query to its rows, so no ordering or
  size bound on the rows is claimed.
- **Embedding vectors.** They are opaque sequences of reals. `str` on a float
  is a parameter, `render`, so the model claims nothing about how a float
  prints.
- **`str` on a tuple.** In `format_chunk` it is a parameter; Python's `repr`
  is not modelled.
- **External services.** The OpenAI embedding and chat calls are functions
  that may fail. They are deterministic, with no retry, rate limit or model
  choice. The model names and the `response[...]` unpacking are not modelled.
- **`fetch_arxiv`.** The HTTP request and Atom parsing, including the
  stripping of entry titles and summaries, are not part of this model. Its
  entries are an input.
- **File and JSON plumbing.** `os.listdir`, `open` and `json.load` are not
  modelled. A listing is an input, as file names plus the parsed papers of
  each file.
- **JSON values.** A JSON `null` and a missing key are both `None` in
  `Documents.JsonPaper`. In Python, `paper.get("title", "")` returns `None`
  for a `null` value: the `src/ingestion/ingest_synthetic.py` script would
  store a NULL title, and the `.strip()` of `src/ingestion/ingest_tutor.py`
  would raise. The model uses the default instead. Non-string titles and
  summaries are likewise not modelled.
- **Database failures during a query.** A failing query is one `Err`; whether
  it came from the connection, the cursor or the statement is not
  distinguished.
- **Connection state.** Closing the connection after a successful run is
  modelled. Closing cursors, and the connection left open when an
  `src/ingestion` script crashes, are not: nothing uncommitted is pending at
  that point.
- **Output and the web layer.** All `print` output, FastAPI routing, CORS, the
  request model and `.env` loading are left out. Where a script prints a
  result, the model returns it instead: the breakdown of `count_sources` and
  the verdict of `check_schema.py`.
- **Argument types.** `top_k` is an integer and `source_filter` an optional
  string. Python accepts any object for either: a string `top_k` would be
  spliced into the query text verbatim, placeholders and SQL included, and
  `if source_filter` tests the truthiness of any value. Other argument types
  are not modelled.
- **The `count_sources` query result.** It is read as rows of nullable text;
  other column types are not modelled.
- **`check_schema.py` input.** The listed column names are given as strings;
  the `information_schema` query itself is left out.
- **Repository scaffolding.** `src/retrieval/db_utils.py`,
  `src/retrieval/generate_answer.py`, `retrieval/retrieve_chunks.py` and the
  one-shot DDL scripts under `scripts/` are not part of this model. They are
  connection plumbing, a one-call wrapper, a duplicate of the retrieval I/O,
  and schema changes whose behaviour belongs to the database.
- **Concurrency.** Concurrent requests and concurrent ingestion runs are not
  modelled; every run is sequential.
