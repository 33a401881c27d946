/** `load_and_insert_all` of `src/ingestion/ingest_synthetic.py`: for every
    chunk of every paper of every ".json" file, one row with the paper's title
    and summary as given (a missing key defaults to "", "" and no chunks), no
    `source`. Each row is committed on its own; nothing catches a failure, so
    the first one ends the run and the rows before it stay committed. */
module SyntheticIngest {
  import opened Common
  import opened Store
  import opened Documents

  /** The rows planned for one paper: one per chunk, in chunk order, each with
      the paper's title and summary unchanged (or "" when missing) and no
      source. A paper without a "chunks" key plans no row. */
  function SyntheticPaperRows(p: JsonPaper): (rows: seq<PlannedRow>)
    ensures |rows| == |p.chunks.GetOr([])|
    ensures p.chunks.None? ==> rows == []
    ensures forall k :: 0 <= k < |rows| ==>
              rows[k] == PlannedRow(p.title.GetOr(""), p.summary.GetOr(""), p.chunks.GetOr([])[k], None)
  {
    ChunkRows(p.title.GetOr(""), p.summary.GetOr(""), p.chunks.GetOr([]), None)
  }

  /** The rows the nested loops plan: file by file, paper by paper, chunk by chunk. */
  function SyntheticPlan(files: seq<JsonFile>): seq<PlannedRow> {
    ConcatMap(JsonPapers(files), SyntheticPaperRows)
  }

  /** `load_and_insert_all()` over the given directory listing: connect (an
      unreachable database raises before anything is inserted), run the
      loops, and close the connection once every file is done. */
  method LoadAndInsertAll(table: PapersTable, files: seq<JsonFile>, embed: string -> Result<Vector>,
                          reachable: bool)
    returns (finished: bool)
    modifies table
    ensures var run := Execute(SyntheticPlan(files), embed, table.accepts);
      if reachable then
        finished == run.completed && table.committed == old(table.committed) + run.rows && table.pending == []
      else
        !finished && table.committed == old(table.committed) && table.pending == old(table.pending)
  {
    var connected := table.Connect(reachable);
    if !connected {
      return false;
    }
    finished := IngestFiles(table, files, SyntheticPaperRows, embed);
    RunFilesIsExecute(files, SyntheticPaperRows, embed, table.accepts);
    if finished {
      table.Close();
    }
  }

  /** Every planned row is a chunk of a paper of a ".json" file, stored with
      that paper's title and summary as given and without a source. */
  lemma SyntheticRowsComeFromChunks(files: seq<JsonFile>, r: PlannedRow)
    requires r in SyntheticPlan(files)
    ensures r.source.None?
    ensures exists i, j :: 0 <= i < |files| && IsJsonFile(files[i]) && 0 <= j < |files[i].papers| &&
              r.title == files[i].papers[j].title.GetOr("") && r.summary == files[i].papers[j].summary.GetOr("") &&
              r.chunk in files[i].papers[j].chunks.GetOr([])
  {
    PlannedFromJsonFile(files, SyntheticPaperRows, r);
    var i, j :| 0 <= i < |files| && IsJsonFile(files[i]) && 0 <= j < |files[i].papers| &&
                r in SyntheticPaperRows(files[i].papers[j]);
    var rows := SyntheticPaperRows(files[i].papers[j]);
    var k :| 0 <= k < |rows| && rows[k] == r;
  }

  /** Every chunk of every paper of a ".json" file is planned. */
  lemma SyntheticPlansEveryChunk(files: seq<JsonFile>, i: nat, j: nat, k: nat)
    requires i < |files| && IsJsonFile(files[i]) && j < |files[i].papers|
    requires k < |files[i].papers[j].chunks.GetOr([])|
    ensures var p := files[i].papers[j];
      PlannedRow(p.title.GetOr(""), p.summary.GetOr(""), p.chunks.GetOr([])[k], None) in SyntheticPlan(files)
  {
    var rows := SyntheticPaperRows(files[i].papers[j]);
    assert rows[k] in rows;
    JsonFileRowPlanned(files, SyntheticPaperRows, i, j, rows[k]);
  }

  /** The run plans as many rows as the papers it reads hold chunks. */
  lemma {:induction false} SyntheticPlanLength(papers: seq<JsonPaper>)
    ensures |ConcatMap(papers, SyntheticPaperRows)| == ChunkCount(papers)
  {
    if |papers| > 0 {
      SyntheticPlanLength(papers[1..]);
    }
  }

  /** The number of chunks of the papers, a missing list counting as none. */
  function ChunkCount(papers: seq<JsonPaper>): nat {
    if |papers| == 0 then 0 else |papers[0].chunks.GetOr([])| + ChunkCount(papers[1..])
  }
}
