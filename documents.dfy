/** The input of the file-driven ingestion scripts: the files of the
    `data-downloads` folder in listing order, each with the papers its JSON
    array holds, and the papers the scripts' loops actually read from it. */
module Documents {
  import opened Common
  import opened Text
  import opened Store

  /** A paper object of a JSON file; a missing key is `None`. */
  datatype JsonPaper = JsonPaper(title: Option<string>, summary: Option<string>, chunks: Option<seq<string>>)

  /** A directory entry: its name and, for a JSON file, the papers it holds. */
  datatype JsonFile = JsonFile(name: string, papers: seq<JsonPaper>)

  /** `file.endswith(".json")`: only such files are opened. */
  predicate IsJsonFile(f: JsonFile) {
    EndsWith(f.name, ".json")
  }

  /** The papers the loop reads from one directory entry: all papers of a
      ".json" file, none of any other file. */
  function PapersRead(f: JsonFile): (ps: seq<JsonPaper>)
    ensures IsJsonFile(f) ==> ps == f.papers
    ensures !IsJsonFile(f) ==> ps == []
  {
    if IsJsonFile(f) then f.papers else []
  }

  /** The papers the nested loops visit, file after file in listing order and
      paper after paper in file order. */
  function JsonPapers(files: seq<JsonFile>): seq<JsonPaper> {
    if |files| == 0 then [] else PapersRead(files[0]) + JsonPapers(files[1..])
  }

  lemma {:induction false} JsonPapersAppend(xs: seq<JsonFile>, ys: seq<JsonFile>)
    ensures JsonPapers(xs + ys) == JsonPapers(xs) + JsonPapers(ys)
  {
    if |xs| == 0 {
      assert xs + ys == ys;
    } else {
      assert (xs + ys)[1..] == xs[1..] + ys;
      JsonPapersAppend(xs[1..], ys);
    }
  }

  lemma JsonPapersSingle(f: JsonFile)
    ensures JsonPapers([f]) == PapersRead(f)
  {
    assert [f][1..] == [];
    assert JsonPapers([f]) == PapersRead(f) + JsonPapers([]);
  }

  /** The papers of the first `k + 1` files are those of the first `k`, then
      those read from file `k`. */
  lemma JsonPapersPrefix(files: seq<JsonFile>, k: nat)
    requires k < |files|
    ensures JsonPapers(files[..k + 1]) == JsonPapers(files[..k]) + PapersRead(files[k])
  {
    assert files[..k + 1] == files[..k] + [files[k]];
    JsonPapersAppend(files[..k], [files[k]]);
    JsonPapersSingle(files[k]);
  }

  /** A paper is visited exactly when it is a paper of a ".json" file. */
  lemma {:induction false} JsonPapersMember(files: seq<JsonFile>, p: JsonPaper)
    ensures p in JsonPapers(files) <==> exists i :: 0 <= i < |files| && IsJsonFile(files[i]) && p in files[i].papers
  {
    if |files| > 0 {
      JsonPapersMember(files[1..], p);
      if exists i :: 0 <= i < |files| && IsJsonFile(files[i]) && p in files[i].papers {
        var i :| 0 <= i < |files| && IsJsonFile(files[i]) && p in files[i].papers;
        if i > 0 {
          assert files[1..][i - 1] == files[i];
        }
      }
      if exists i :: 0 <= i < |files[1..]| && IsJsonFile(files[1..][i]) && p in files[1..][i].papers {
        var i :| 0 <= i < |files[1..]| && IsJsonFile(files[1..][i]) && p in files[1..][i].papers;
        assert files[i + 1] == files[1..][i];
      }
    }
  }

  /** Every planned row comes from a paper of a file whose name ends in ".json". */
  lemma PlannedFromJsonFile(files: seq<JsonFile>, rowsOf: JsonPaper -> seq<PlannedRow>, r: PlannedRow)
    requires r in ConcatMap(JsonPapers(files), rowsOf)
    ensures exists i, j :: 0 <= i < |files| && IsJsonFile(files[i]) && 0 <= j < |files[i].papers| &&
                           r in rowsOf(files[i].papers[j])
  {
    ConcatMapMember(JsonPapers(files), rowsOf, r);
    var k :| 0 <= k < |JsonPapers(files)| && r in rowsOf(JsonPapers(files)[k]);
    var p := JsonPapers(files)[k];
    JsonPapersMember(files, p);
    var i :| 0 <= i < |files| && IsJsonFile(files[i]) && p in files[i].papers;
    var j :| 0 <= j < |files[i].papers| && files[i].papers[j] == p;
  }

  /** Every row planned for a paper of a ".json" file is planned. */
  lemma JsonFileRowPlanned(files: seq<JsonFile>, rowsOf: JsonPaper -> seq<PlannedRow>, i: nat, j: nat, r: PlannedRow)
    requires i < |files| && IsJsonFile(files[i]) && j < |files[i].papers|
    requires r in rowsOf(files[i].papers[j])
    ensures r in ConcatMap(JsonPapers(files), rowsOf)
  {
    var p := files[i].papers[j];
    assert p in files[i].papers;
    JsonPapersMember(files, p);
    var k :| 0 <= k < |JsonPapers(files)| && JsonPapers(files)[k] == p;
    ConcatMapHas(JsonPapers(files), rowsOf, k, r);
  }

  /** The outcome of the loop over the listing: each file's papers ingested
      one after the other (`RunEach`), a file reached only when every file
      before it completed. */
  function RunFiles(files: seq<JsonFile>, rowsOf: JsonPaper -> seq<PlannedRow>,
                    embed: string -> Result<Vector>, accepts: StoredRow -> bool): Run
  {
    if |files| == 0 then Run([], true)
    else
      var before := RunFiles(files[..|files| - 1], rowsOf, embed, accepts);
      if !before.completed then before
      else
        var last := RunEach(PapersRead(files[|files| - 1]), rowsOf, embed, accepts);
        Run(before.rows + last.rows, last.completed)
  }

  /** One more file, reached after every file before it completed, adds the
      rows of the run over its papers. */
  lemma RunFilesStep(files: seq<JsonFile>, rowsOf: JsonPaper -> seq<PlannedRow>, k: nat,
                     embed: string -> Result<Vector>, accepts: StoredRow -> bool)
    requires k < |files| && RunFiles(files[..k], rowsOf, embed, accepts).completed
    ensures var last := RunEach(PapersRead(files[k]), rowsOf, embed, accepts);
      RunFiles(files[..k + 1], rowsOf, embed, accepts) ==
      Run(RunFiles(files[..k], rowsOf, embed, accepts).rows + last.rows, last.completed)
  {
    assert files[..k + 1][..k] == files[..k];
  }

  /** Once a file fails, the files after it change nothing. */
  lemma {:induction false} RunFilesStopped(files: seq<JsonFile>, rowsOf: JsonPaper -> seq<PlannedRow>, k: nat,
                                           embed: string -> Result<Vector>, accepts: StoredRow -> bool)
    requires k <= |files| && !RunFiles(files[..k], rowsOf, embed, accepts).completed
    ensures RunFiles(files, rowsOf, embed, accepts) == RunFiles(files[..k], rowsOf, embed, accepts)
  {
    if k < |files| {
      var init := files[..|files| - 1];
      assert init[..k] == files[..k];
      RunFilesStopped(init, rowsOf, k, embed, accepts);
    } else {
      assert files[..k] == files;
    }
  }

  /** The loop over the listing runs the planned rows of the papers it
      visits, in order. */
  lemma {:induction false} RunFilesIsExecute(files: seq<JsonFile>, rowsOf: JsonPaper -> seq<PlannedRow>,
                                             embed: string -> Result<Vector>, accepts: StoredRow -> bool)
    ensures RunFiles(files, rowsOf, embed, accepts) == Execute(ConcatMap(JsonPapers(files), rowsOf), embed, accepts)
  {
    if |files| > 0 {
      var n := |files| - 1;
      RunFilesIsExecute(files[..n], rowsOf, embed, accepts);
      RunEachIsExecute(PapersRead(files[n]), rowsOf, embed, accepts);
      JsonPapersPrefix(files, n);
      assert files[..n + 1] == files;
      ConcatMapAppend(JsonPapers(files[..n]), PapersRead(files[n]), rowsOf);
      ExecuteAppend(ConcatMap(JsonPapers(files[..n]), rowsOf), ConcatMap(PapersRead(files[n]), rowsOf), embed, accepts);
    }
  }

  /** The loop over the directory listing shared by the file-driven scripts:
      every ".json" file is opened and its papers ingested in order, each
      paper's planned rows (`rowsOf`) inserted one at a time with a commit
      after each; the first failure ends the run. */
  method IngestFiles(table: PapersTable, files: seq<JsonFile>, rowsOf: JsonPaper -> seq<PlannedRow>,
                     embed: string -> Result<Vector>)
    returns (finished: bool)
    requires table.pending == []
    modifies table
    ensures var run := RunFiles(files, rowsOf, embed, table.accepts);
      finished == run.completed && table.committed == old(table.committed) + run.rows && table.pending == []
  {
    ghost var start := table.committed;
    ghost var accepts := table.accepts;
    var i := 0;
    while i < |files|
      invariant 0 <= i <= |files|
      invariant table.pending == []
      invariant RunFiles(files[..i], rowsOf, embed, accepts).completed
      invariant table.committed == start + RunFiles(files[..i], rowsOf, embed, accepts).rows
    {
      RunFilesStep(files, rowsOf, i, embed, accepts);
      ghost var done := RunFiles(files[..i], rowsOf, embed, accepts).rows;
      ghost var next := RunEach(PapersRead(files[i]), rowsOf, embed, accepts).rows;
      var ok := IngestFile(table, files[i], rowsOf, embed);
      assert table.committed == start + done + next == start + (done + next);
      if !ok {
        RunFilesStopped(files, rowsOf, i + 1, embed, accepts);
        return false;
      }
      i := i + 1;
    }
    assert files[..i] == files;
    finished := true;
  }

  /** One directory entry: a ".json" file has its papers ingested, any other
      file is skipped. */
  method IngestFile(table: PapersTable, f: JsonFile, rowsOf: JsonPaper -> seq<PlannedRow>,
                    embed: string -> Result<Vector>)
    returns (finished: bool)
    requires table.pending == []
    modifies table
    ensures var run := RunEach(PapersRead(f), rowsOf, embed, table.accepts);
      finished == run.completed && table.committed == old(table.committed) + run.rows && table.pending == []
  {
    if EndsWith(f.name, ".json") {
      finished := IngestPapers(table, f.papers, rowsOf, embed);
    } else {
      finished := true;
      assert table.committed == table.committed + RunEach([], rowsOf, embed, table.accepts).rows;
    }
  }

  /** The loop over the papers of one ".json" file. */
  method IngestPapers(table: PapersTable, papers: seq<JsonPaper>, rowsOf: JsonPaper -> seq<PlannedRow>,
                      embed: string -> Result<Vector>)
    returns (finished: bool)
    requires table.pending == []
    modifies table
    ensures var run := RunEach(papers, rowsOf, embed, table.accepts);
      finished == run.completed && table.committed == old(table.committed) + run.rows && table.pending == []
  {
    ghost var start := table.committed;
    ghost var accepts := table.accepts;
    var j := 0;
    while j < |papers|
      invariant 0 <= j <= |papers|
      invariant table.pending == []
      invariant RunEach(papers[..j], rowsOf, embed, accepts).completed
      invariant table.committed == start + RunEach(papers[..j], rowsOf, embed, accepts).rows
    {
      RunEachStep(papers, rowsOf, j, embed, accepts);
      ghost var done := RunEach(papers[..j], rowsOf, embed, accepts).rows;
      ghost var next := Execute(rowsOf(papers[j]), embed, accepts).rows;
      var ok := InsertEach(table, rowsOf(papers[j]), embed);
      assert table.committed == start + done + next == start + (done + next);
      if !ok {
        RunEachStopped(papers, rowsOf, j + 1, embed, accepts);
        return false;
      }
      j := j + 1;
    }
    assert papers[..j] == papers;
    finished := true;
  }
}
