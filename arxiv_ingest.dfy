/** `ingest_arxiv_data`: one row per fetched arXiv entry, in entry order, the
    summary doubling as the chunk and every row tagged "arxiv"; each row is
    committed on its own, and the first failure ends the run. */
module ArxivIngest {
  import opened Common
  import opened Store

  /** An entry as `fetch_arxiv` returns it: the title and summary of an Atom entry. */
  datatype Entry = Entry(title: string, summary: string)

  const SourceTag := "arxiv"

  /** The row planned for an entry: title and summary as received, the
      summary as the chunk. */
  function EntryRow(e: Entry): (p: PlannedRow)
    ensures p.title == e.title && p.summary == e.summary && p.chunk == e.summary
    ensures p.source == Some(SourceTag)
  {
    PlannedRow(e.title, e.summary, e.summary, Some(SourceTag))
  }

  /** The rows the loop over the entries plans, one per entry. */
  function ArxivPlan(entries: seq<Entry>): (plan: seq<PlannedRow>)
    ensures |plan| == |entries| && forall i :: 0 <= i < |entries| ==> plan[i] == EntryRow(entries[i])
  {
    seq(|entries|, i requires 0 <= i < |entries| => EntryRow(entries[i]))
  }

  lemma ArxivPlanSplit(entries: seq<Entry>, k: nat)
    requires k < |entries|
    ensures ArxivPlan(entries[..k + 1]) == ArxivPlan(entries[..k]) + [EntryRow(entries[k])]
    ensures ArxivPlan(entries) == ArxivPlan(entries[..k + 1]) + ArxivPlan(entries[k + 1..])
  {
    assert ArxivPlan(entries[..k + 1]) == ArxivPlan(entries[..k]) + [EntryRow(entries[k])];
    assert ArxivPlan(entries) == ArxivPlan(entries[..k + 1]) + ArxivPlan(entries[k + 1..]);
  }

  /** `ingest_arxiv_data()` over the given entries. An unreachable database
      raises before anything is inserted; otherwise the committed rows grow by
      the run of the plan, and `finished` says whether it reached the end. */
  method IngestArxivData(table: PapersTable, entries: seq<Entry>, embed: string -> Result<Vector>,
                        reachable: bool)
    returns (finished: bool)
    modifies table
    ensures var run := Execute(ArxivPlan(entries), embed, table.accepts);
      if reachable then
        finished == run.completed && table.committed == old(table.committed) + run.rows && table.pending == []
      else
        !finished && table.committed == old(table.committed) && table.pending == old(table.pending)
  {
    var connected := table.Connect(reachable);
    if !connected {
      return false;
    }
    ghost var start := table.committed;
    var i := 0;
    while i < |entries|
      invariant 0 <= i <= |entries|
      invariant table.pending == []
      invariant Execute(ArxivPlan(entries[..i]), embed, table.accepts).completed
      invariant table.committed == start + Execute(ArxivPlan(entries[..i]), embed, table.accepts).rows
    {
      ghost var done := ArxivPlan(entries[..i]);
      var p := EntryRow(entries[i]);
      ArxivPlanSplit(entries, i);
      var ok := InsertPlanned(table, p, embed);
      if !ok {
        StepStops(done, [p], ArxivPlan(entries[i + 1..]), embed, table.accepts);
        return false;
      }
      StepInserts(done, [p], embed, table.accepts);
      i := i + 1;
    }
    assert entries[..i] == entries;
    table.Close();
    finished := true;
  }

  /** Every inserted row is its entry's: title and summary as received, the
      summary as the chunk, the chunk's embedding, the tag "arxiv". */
  lemma ArxivRowsFollowEntries(entries: seq<Entry>, embed: string -> Result<Vector>, accepts: StoredRow -> bool)
    ensures var run := Execute(ArxivPlan(entries), embed, accepts);
      |run.rows| <= |entries| &&
      forall i :: 0 <= i < |run.rows| ==>
        embed(entries[i].summary).Ok? &&
        run.rows[i] == StoredRow(entries[i].title, entries[i].summary, entries[i].summary,
                                 embed(entries[i].summary).value, Some(SourceTag))
  {
    ExecuteStopsAtFirstFailure(ArxivPlan(entries), embed, accepts);
  }

  /** When no embedding fails and the database takes every row, there is
      exactly one row per entry. */
  lemma ArxivOneRowPerEntry(entries: seq<Entry>, embed: string -> Result<Vector>, accepts: StoredRow -> bool)
    requires forall i :: 0 <= i < |entries| ==> !Fails(EntryRow(entries[i]), embed, accepts)
    ensures var run := Execute(ArxivPlan(entries), embed, accepts);
      run.completed && |run.rows| == |entries|
  {
    ExecuteAllAccepted(ArxivPlan(entries), embed, accepts);
  }
}
