/** `ingestion/ingest_synthetic.py`: the two built-in example papers, each
    ingested by `insert_into_db` over a connection of its own. A paper's
    chunks are inserted one by one and committed together; any failure is
    caught, the connection closed without a commit, and the next paper is
    still processed. No `source` is written. */
module BatchIngest {
  import opened Common
  import opened Store

  /** A paper of the built-in list; every key is present. */
  datatype Paper = Paper(title: string, summary: string, chunks: seq<string>)

  /** `synthetic_papers` */
  const SyntheticPapers: seq<Paper> := [
    Paper("Advances in Perovskite Solar Cells",
          "Recent developments have significantly improved efficiency and stability...",
          ["Perovskite materials are revolutionising solar cell design due to their high light absorption.",
           "Challenges remain in moisture sensitivity and scale-up manufacturing processes."]),
    Paper("Graphene Applications in Energy Storage",
          "Graphene-based electrodes offer high conductivity and surface area...",
          ["Graphene supercapacitors store energy by fast surface charge accumulation.",
           "Integration with lithium-ion systems remains an area of active research."])
  ]

  /** The rows `insert_into_db` inserts for a paper: one per chunk, in chunk
      order, with the paper's title and summary unchanged and no source. */
  function PaperRows(p: Paper): (rows: seq<PlannedRow>)
    ensures |rows| == |p.chunks|
    ensures forall k :: 0 <= k < |rows| ==> rows[k] == PlannedRow(p.title, p.summary, p.chunks[k], None)
  {
    ChunkRows(p.title, p.summary, p.chunks, None)
  }

  /** The rows `insert_into_db(paper)` commits: every row of the paper when
      its own connection opens (`reachable`) and every chunk is embedded and
      inserted, none otherwise. */
  function PaperCommits(p: Paper, embed: string -> Result<Vector>, accepts: StoredRow -> bool, reachable: bool)
    : seq<StoredRow>
  {
    var run := Execute(PaperRows(p), embed, accepts);
    if reachable && run.completed then run.rows else []
  }

  /** A paper is committed whole or not at all; when whole, its rows are its
      chunks in order, with the paper's title and summary and no source. */
  lemma PaperAllOrNothing(p: Paper, embed: string -> Result<Vector>, accepts: StoredRow -> bool, reachable: bool)
    ensures var rows := PaperCommits(p, embed, accepts, reachable);
      (rows == [] || |rows| == |p.chunks|) &&
      forall k :: 0 <= k < |rows| ==>
        embed(p.chunks[k]).Ok? && rows[k] == StoredRow(p.title, p.summary, p.chunks[k], embed(p.chunks[k]).value, None)
  {
    ExecuteStopsAtFirstFailure(PaperRows(p), embed, accepts);
  }

  /** `insert_into_db(paper)`: connect, insert every chunk's row in the open
      transaction, then commit. An unreachable database, a failing embedding
      or a refused row is caught: the connection (if any) is closed without a
      commit, which rolls the paper's rows back. `reachable` is the outcome of
      this call's own `psycopg2.connect`. */
  method InsertIntoDb(table: PapersTable, paper: Paper, embed: string -> Result<Vector>, reachable: bool)
    returns (inserted: bool)
    modifies table
    ensures inserted == (reachable && Execute(PaperRows(paper), embed, table.accepts).completed)
    ensures table.committed == old(table.committed) + PaperCommits(paper, embed, table.accepts, reachable)
    ensures reachable ==> table.pending == []
    ensures !reachable ==> table.pending == old(table.pending)
  {
    var connected := table.Connect(reachable);
    if !connected {
      return false;
    }
    ghost var plan := PaperRows(paper);
    ghost var start := table.committed;
    var k := 0;
    while k < |paper.chunks|
      invariant 0 <= k <= |paper.chunks|
      invariant table.committed == start
      invariant Execute(plan[..k], embed, table.accepts).completed
      invariant table.pending == Execute(plan[..k], embed, table.accepts).rows
    {
      var e := embed(paper.chunks[k]);
      var ok := e.Ok?;
      if ok {
        ok := table.Insert(StoredRow(paper.title, paper.summary, paper.chunks[k], e.value, None));
      }
      assert plan[..k + 1] == plan[..k] + [plan[k]];
      if !ok {
        assert plan == plan[..k] + [plan[k]] + plan[k + 1..];
        StepStops(plan[..k], [plan[k]], plan[k + 1..], embed, table.accepts);
        table.Close();
        return false;
      }
      StepInserts(plan[..k], [plan[k]], embed, table.accepts);
      k := k + 1;
    }
    assert plan[..k] == plan;
    table.Commit();
    table.Close();
    inserted := true;
  }

  /** The rows the `__main__` loop commits: each paper's own commits, paper
      after paper, paper `i` connecting with outcome `reachable[i]`. */
  function BatchCommits(papers: seq<Paper>, embed: string -> Result<Vector>, accepts: StoredRow -> bool,
                        reachable: seq<bool>): seq<StoredRow>
    requires |reachable| == |papers|
  {
    if |papers| == 0 then []
    else
      var n := |papers| - 1;
      BatchCommits(papers[..n], embed, accepts, reachable[..n]) + PaperCommits(papers[n], embed, accepts, reachable[n])
  }

  /** One more paper adds its own commits. */
  lemma BatchCommitsStep(papers: seq<Paper>, reachable: seq<bool>, k: nat, embed: string -> Result<Vector>,
                         accepts: StoredRow -> bool)
    requires |reachable| == |papers| && k < |papers|
    ensures BatchCommits(papers[..k + 1], embed, accepts, reachable[..k + 1]) ==
            BatchCommits(papers[..k], embed, accepts, reachable[..k]) +
            PaperCommits(papers[k], embed, accepts, reachable[k])
  {
    assert papers[..k + 1][..k] == papers[..k];
    assert reachable[..k + 1][..k] == reachable[..k];
  }

  /** The `__main__` loop: `insert_into_db` for each paper in list order, each
      over a connection of its own. The open transaction is left empty once
      any paper has connected. */
  method InsertAll(table: PapersTable, papers: seq<Paper>, embed: string -> Result<Vector>, reachable: seq<bool>)
    requires |reachable| == |papers|
    modifies table
    ensures table.committed == old(table.committed) + BatchCommits(papers, embed, table.accepts, reachable)
    ensures true in reachable ==> table.pending == []
    ensures true !in reachable ==> table.pending == old(table.pending)
  {
    ghost var start := table.committed;
    ghost var accepts := table.accepts;
    ghost var pending0 := table.pending;
    ghost var connectedOnce := false;
    var i := 0;
    while i < |papers|
      invariant 0 <= i <= |papers|
      invariant table.committed == start + BatchCommits(papers[..i], embed, accepts, reachable[..i])
      invariant connectedOnce <==> true in reachable[..i]
      invariant connectedOnce ==> table.pending == []
      invariant !connectedOnce ==> table.pending == pending0
    {
      ghost var done := BatchCommits(papers[..i], embed, accepts, reachable[..i]);
      ghost var next := PaperCommits(papers[i], embed, accepts, reachable[i]);
      var _ := InsertIntoDb(table, papers[i], embed, reachable[i]);
      assert table.committed == start + done + next == start + (done + next);
      assert reachable[..i + 1] == reachable[..i] + [reachable[i]];
      connectedOnce := connectedOnce || reachable[i];
      BatchCommitsStep(papers, reachable, i, embed, accepts);
      i := i + 1;
    }
    assert papers[..i] == papers;
    assert reachable[..i] == reachable;
  }

  /** Running the script: the built-in papers, in list order. */
  method Run(table: PapersTable, embed: string -> Result<Vector>, reachable: seq<bool>)
    requires |reachable| == |SyntheticPapers|
    modifies table
    ensures table.committed == old(table.committed) + BatchCommits(SyntheticPapers, embed, table.accepts, reachable)
    ensures true in reachable ==> table.pending == []
    ensures true !in reachable ==> table.pending == old(table.pending)
  {
    InsertAll(table, SyntheticPapers, embed, reachable);
  }

  /** Ingesting two lists one after the other commits what each commits on
      its own: a failing paper changes nothing for the papers after it. */
  lemma {:induction false} BatchCommitsAppend(a: seq<Paper>, b: seq<Paper>, ra: seq<bool>, rb: seq<bool>,
                                              embed: string -> Result<Vector>, accepts: StoredRow -> bool)
    requires |ra| == |a| && |rb| == |b|
    ensures BatchCommits(a + b, embed, accepts, ra + rb) ==
            BatchCommits(a, embed, accepts, ra) + BatchCommits(b, embed, accepts, rb)
  {
    if |b| == 0 {
      assert a + b == a;
      assert ra + rb == ra;
    } else {
      var n := |b| - 1;
      var last := PaperCommits(b[n], embed, accepts, rb[n]);
      assert (a + b)[..|a + b| - 1] == a + b[..n];
      assert (ra + rb)[..|ra + rb| - 1] == ra + rb[..n];
      assert (a + b)[|a + b| - 1] == b[n];
      assert (ra + rb)[|ra + rb| - 1] == rb[n];
      assert BatchCommits(a + b, embed, accepts, ra + rb) ==
             BatchCommits(a + b[..n], embed, accepts, ra + rb[..n]) + last;
      assert BatchCommits(b, embed, accepts, rb) == BatchCommits(b[..n], embed, accepts, rb[..n]) + last;
      BatchCommitsAppend(a, b[..n], ra, rb[..n], embed, accepts);
    }
  }

  /** Paper `k` commits its own rows whatever happened to the papers before
      it, its connection included, and the papers after it are processed all
      the same. */
  lemma FailureDoesNotStopLaterPapers(papers: seq<Paper>, reachable: seq<bool>, k: nat,
                                      embed: string -> Result<Vector>, accepts: StoredRow -> bool)
    requires |reachable| == |papers| && k < |papers|
    ensures BatchCommits(papers, embed, accepts, reachable) ==
            BatchCommits(papers[..k], embed, accepts, reachable[..k]) +
            PaperCommits(papers[k], embed, accepts, reachable[k]) +
            BatchCommits(papers[k + 1..], embed, accepts, reachable[k + 1..])
  {
    assert papers == papers[..k + 1] + papers[k + 1..];
    assert reachable == reachable[..k + 1] + reachable[k + 1..];
    BatchCommitsAppend(papers[..k + 1], papers[k + 1..], reachable[..k + 1], reachable[k + 1..], embed, accepts);
    BatchCommitsStep(papers, reachable, k, embed, accepts);
  }

  /** Nothing checks for rows already present: running the script twice
      commits what each run commits on its own, so a row committed by both
      runs is there twice. A corollary of `BatchCommitsAppend`, as `Run`
      appends its commits to the rows already committed. */
  lemma RerunDuplicatesRows(papers: seq<Paper>, first: seq<bool>, second: seq<bool>,
                            embed: string -> Result<Vector>, accepts: StoredRow -> bool)
    requires |first| == |papers| && |second| == |papers|
    ensures BatchCommits(papers + papers, embed, accepts, first + second) ==
            BatchCommits(papers, embed, accepts, first) + BatchCommits(papers, embed, accepts, second)
  {
    BatchCommitsAppend(papers, papers, first, second, embed, accepts);
  }

  /** With a working embedding service and no refused row, the script commits
      four rows when both connections open: the two chunks of the first paper,
      then the two of the second, each with its paper's title and summary. */
  lemma SyntheticPapersAllCommitted(embed: string -> Result<Vector>, accepts: StoredRow -> bool)
    requires forall r :: !Fails(r, embed, accepts)
    ensures var rows := BatchCommits(SyntheticPapers, embed, accepts, [true, true]);
      |rows| == 4 &&
      forall i, k :: 0 <= i < 2 && 0 <= k < 2 ==>
        rows[2 * i + k] == StoredRow(SyntheticPapers[i].title, SyntheticPapers[i].summary,
                                     SyntheticPapers[i].chunks[k], embed(SyntheticPapers[i].chunks[k]).value, None)
  {
    var p0 := SyntheticPapers[0];
    var p1 := SyntheticPapers[1];
    ExecuteAllAccepted(PaperRows(p0), embed, accepts);
    ExecuteAllAccepted(PaperRows(p1), embed, accepts);
    PaperAllOrNothing(p0, embed, accepts, true);
    PaperAllOrNothing(p1, embed, accepts, true);
    assert SyntheticPapers == [p0] + [p1];
    BatchCommitsAppend([p0], [p1], [true], [true], embed, accepts);
    assert BatchCommits([p0], embed, accepts, [true]) == PaperCommits(p0, embed, accepts, true);
    assert BatchCommits([p1], embed, accepts, [true]) == PaperCommits(p1, embed, accepts, true);
  }

  /** A paper whose connection fails is skipped and the next paper connects
      again: when only the second connection opens, exactly the second paper's
      two rows are committed. */
  lemma FirstConnectFailsSecondCommits(embed: string -> Result<Vector>, accepts: StoredRow -> bool)
    requires forall r :: !Fails(r, embed, accepts)
    ensures var rows := BatchCommits(SyntheticPapers, embed, accepts, [false, true]);
      var p := SyntheticPapers[1];
      |rows| == 2 &&
      forall k :: 0 <= k < 2 ==> rows[k] == StoredRow(p.title, p.summary, p.chunks[k], embed(p.chunks[k]).value, None)
  {
    var p0 := SyntheticPapers[0];
    var p1 := SyntheticPapers[1];
    ExecuteAllAccepted(PaperRows(p1), embed, accepts);
    PaperAllOrNothing(p1, embed, accepts, true);
    assert SyntheticPapers == [p0] + [p1];
    BatchCommitsAppend([p0], [p1], [false], [true], embed, accepts);
    assert BatchCommits([p0], embed, accepts, [false]) == [];
    assert BatchCommits([p1], embed, accepts, [true]) == PaperCommits(p1, embed, accepts, true);
  }
}
