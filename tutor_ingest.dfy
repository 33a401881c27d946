/** `ingest_tutor_data`: for every paper of every ".json" file, the stripped
    title and summary; a paper whose stripped summary is empty is skipped,
    every other gives one row whose chunk is the summary, tagged "tutor".
    Each row is committed on its own, and the first failure ends the run. */
module TutorIngest {
  import opened Common
  import opened Text
  import opened Store
  import opened Documents

  const SourceTag := "tutor"

  /** The rows planned for one paper: none when the stripped summary is
      empty, otherwise the one row of its stripped title and summary. */
  function TutorPaperRows(p: JsonPaper): (rows: seq<PlannedRow>)
    ensures |rows| <= 1
    ensures |rows| == 1 <==> Strip(p.summary.GetOr("")) != ""
    ensures |rows| == 1 ==>
              rows[0] == PlannedRow(Strip(p.title.GetOr("")), Strip(p.summary.GetOr("")),
                                    Strip(p.summary.GetOr("")), Some(SourceTag))
  {
    var title := Strip(p.title.GetOr(""));
    var summary := Strip(p.summary.GetOr(""));
    if summary == "" then [] else [PlannedRow(title, summary, summary, Some(SourceTag))]
  }

  /** The rows the nested loops plan, file by file and paper by paper; only
      ".json" files are read. */
  function TutorPlan(files: seq<JsonFile>): seq<PlannedRow> {
    ConcatMap(JsonPapers(files), TutorPaperRows)
  }

  /** `ingest_tutor_data()` over the given directory listing: connect, then
      the loop over the ".json" files and their papers, each kept paper's row
      embedded and committed at once. An unreachable database raises before
      anything is inserted; otherwise the committed rows grow by the run of
      the plan, up to its first failure. */
  method IngestTutorData(table: PapersTable, files: seq<JsonFile>, embed: string -> Result<Vector>,
                         reachable: bool)
    returns (finished: bool)
    modifies table
    ensures var run := Execute(TutorPlan(files), embed, table.accepts);
      if reachable then
        finished == run.completed && table.committed == old(table.committed) + run.rows && table.pending == []
      else
        !finished && table.committed == old(table.committed) && table.pending == old(table.pending)
  {
    var connected := table.Connect(reachable);
    if !connected {
      return false;
    }
    finished := IngestFiles(table, files, TutorPaperRows, embed);
    RunFilesIsExecute(files, TutorPaperRows, embed, table.accepts);
    if finished {
      table.Close();
    }
  }

  /** The one row a paper may plan is tagged "tutor", has a non-empty summary
      that is also its chunk, and its title and summary are stripped. */
  lemma TutorPaperRowIsStrippedSummary(p: JsonPaper, r: PlannedRow)
    requires r in TutorPaperRows(p)
    ensures r.source == Some(SourceTag) && r.chunk == r.summary && r.summary != ""
    ensures Strip(r.title) == r.title && Strip(r.summary) == r.summary
  {
    StripIdempotent(p.title.GetOr(""));
    StripIdempotent(p.summary.GetOr(""));
  }

  /** Every planned row is tagged "tutor", has a non-empty summary that is
      also its chunk, and its title and summary are stripped. */
  lemma TutorRowsAreStrippedSummaries(files: seq<JsonFile>, r: PlannedRow)
    requires r in TutorPlan(files)
    ensures r.source == Some(SourceTag) && r.chunk == r.summary && r.summary != ""
    ensures Strip(r.title) == r.title && Strip(r.summary) == r.summary
  {
    ConcatMapMember(JsonPapers(files), TutorPaperRows, r);
    var j :| 0 <= j < |JsonPapers(files)| && r in TutorPaperRows(JsonPapers(files)[j]);
    TutorPaperRowIsStrippedSummary(JsonPapers(files)[j], r);
  }

  /** A paper of a ".json" file whose stripped summary is not empty is planned. */
  lemma TutorKeepsNonEmptySummaries(files: seq<JsonFile>, i: nat, j: nat)
    requires i < |files| && IsJsonFile(files[i]) && j < |files[i].papers|
    requires Strip(files[i].papers[j].summary.GetOr("")) != ""
    ensures TutorPaperRows(files[i].papers[j])[0] in TutorPlan(files)
  {
    JsonFileRowPlanned(files, TutorPaperRows, i, j, TutorPaperRows(files[i].papers[j])[0]);
  }

  /** Every planned row comes from a paper of a file whose name ends in ".json". */
  lemma TutorReadsOnlyJsonFiles(files: seq<JsonFile>, r: PlannedRow)
    requires r in TutorPlan(files)
    ensures exists i, j :: 0 <= i < |files| && IsJsonFile(files[i]) && 0 <= j < |files[i].papers| &&
                           r in TutorPaperRows(files[i].papers[j])
  {
    PlannedFromJsonFile(files, TutorPaperRows, r);
  }
}
