/** The `papers` table as the ingestion scripts see it through one
    connection: rows made durable by a commit, and rows inserted in the open
    transaction. The database may refuse a row (a constraint, a type, a
    dimension mismatch); the embedding service may fail. */
module Store {
  import opened Common

  /** A row the ingestion scripts insert. `source` is `None` when the INSERT
      leaves the column out (the column is then NULL). */
  datatype StoredRow = StoredRow(title: string, summary: string, chunk: string, embedding: Vector,
                                 source: Option<string>)

  class PapersTable {
    /** The rows made durable by a commit, in insertion order. */
    var committed: seq<StoredRow>
    /** The rows inserted in the open transaction, in insertion order. */
    var pending: seq<StoredRow>
    /** Whether the database accepts a row; a refused INSERT raises. */
    const accepts: StoredRow -> bool

    constructor (rows: seq<StoredRow>, accepts: StoredRow -> bool)
      ensures committed == rows && pending == []
      ensures this.accepts == accepts
    {
      committed := rows;
      pending := [];
      this.accepts := accepts;
    }

    /** `psycopg2.connect(...)`: a new connection starts with an empty
        transaction; an unreachable database raises. Whether the database is
        reachable at the moment of this call is `reachable`, decided by the
        environment for every call anew. */
    method Connect(reachable: bool) returns (ok: bool)
      modifies this
      ensures ok == reachable
      ensures committed == old(committed)
      ensures pending == if ok then [] else old(pending)
    {
      ok := reachable;
      if ok {
        pending := [];
      }
    }

    /** `cursor.execute("INSERT INTO papers ...", row)`: the row joins the open
        transaction, or the database raises and nothing is added. */
    method Insert(row: StoredRow) returns (ok: bool)
      modifies this
      ensures ok == accepts(row)
      ensures committed == old(committed)
      ensures pending == if ok then old(pending) + [row] else old(pending)
    {
      ok := accepts(row);
      if ok {
        pending := pending + [row];
      }
    }

    /** `conn.commit()` */
    method Commit()
      modifies this
      ensures committed == old(committed) + old(pending) && pending == []
    {
      committed := committed + pending;
      pending := [];
    }

    /** `conn.close()` without a commit: the open transaction is rolled back. */
    method Close()
      modifies this
      ensures committed == old(committed) && pending == []
    {
      pending := [];
    }
  }

  /** `insert_paper(conn, title, summary, chunk, embedding[, source])` of the
      `src/ingestion` scripts: insert the row and commit at once. A refused row
      raises before the commit. */
  method InsertPaper(table: PapersTable, row: StoredRow) returns (ok: bool)
    modifies table
    ensures ok == table.accepts(row)
    ensures ok ==> table.committed == old(table.committed) + old(table.pending) + [row] && table.pending == []
    ensures !ok ==> table.committed == old(table.committed) && table.pending == old(table.pending)
  {
    ok := table.Insert(row);
    if ok {
      table.Commit();
    }
  }

  // ---------------------------------------------------------------- planned rows

  /** A row an ingestion script decides to insert, before its chunk is embedded. */
  datatype PlannedRow = PlannedRow(title: string, summary: string, chunk: string, source: Option<string>)

  /** The row stored for a planned row once its chunk has embedding `e`. */
  function Stored(p: PlannedRow, e: Vector): (row: StoredRow)
    ensures row.title == p.title && row.summary == p.summary && row.chunk == p.chunk
    ensures row.embedding == e && row.source == p.source
  {
    StoredRow(p.title, p.summary, p.chunk, e, p.source)
  }

  /** Whether planned row `p` stops a run: its embedding raises, or the
      database refuses the row. */
  predicate Fails(p: PlannedRow, embed: string -> Result<Vector>, accepts: StoredRow -> bool) {
    embed(p.chunk).Err? || !accepts(Stored(p, embed(p.chunk).value))
  }

  /** The outcome of inserting planned rows one by one: the rows inserted, and
      whether every planned row was. */
  datatype Run = Run(rows: seq<StoredRow>, completed: bool)

  /** Embed and insert the planned rows in order, stopping at the first that
      fails; the rows before it are inserted, it and those after it are not
      (`ExecuteStopsAtFirstFailure`). */
  function Execute(plan: seq<PlannedRow>, embed: string -> Result<Vector>, accepts: StoredRow -> bool): (r: Run)
    ensures |r.rows| <= |plan| && (r.completed <==> |r.rows| == |plan|)
  {
    if |plan| == 0 then Run([], true)
    else if Fails(plan[0], embed, accepts) then Run([], false)
    else
      var rest := Execute(plan[1..], embed, accepts);
      Run([Stored(plan[0], embed(plan[0].chunk).value)] + rest.rows, rest.completed)
  }

  /** The inserted rows are the stored forms of the planned rows up to the
      first failing one, which is where an incomplete run stops. */
  lemma {:induction false} ExecuteStopsAtFirstFailure(plan: seq<PlannedRow>, embed: string -> Result<Vector>,
                                                      accepts: StoredRow -> bool)
    ensures var r := Execute(plan, embed, accepts);
      (forall i :: 0 <= i < |r.rows| ==>
         !Fails(plan[i], embed, accepts) && r.rows[i] == Stored(plan[i], embed(plan[i].chunk).value)) &&
      (!r.completed ==> Fails(plan[|r.rows|], embed, accepts))
  {
    if |plan| > 0 && !Fails(plan[0], embed, accepts) {
      ExecuteStopsAtFirstFailure(plan[1..], embed, accepts);
      assert forall i :: 1 <= i < |plan| ==> plan[i] == plan[1..][i - 1];
    }
  }

  /** Embed and insert planned rows one at a time, each handed to
      `insert_paper`, which commits it on its own; the first failure ends the
      loop, leaving the rows before it committed. */
  method InsertEach(table: PapersTable, plan: seq<PlannedRow>, embed: string -> Result<Vector>)
    returns (finished: bool)
    requires table.pending == []
    modifies table
    ensures var run := Execute(plan, embed, table.accepts);
      finished == run.completed && table.committed == old(table.committed) + run.rows && table.pending == []
  {
    ghost var start := table.committed;
    var k := 0;
    while k < |plan|
      invariant 0 <= k <= |plan|
      invariant table.pending == []
      invariant Execute(plan[..k], embed, table.accepts).completed
      invariant table.committed == start + Execute(plan[..k], embed, table.accepts).rows
    {
      var ok := InsertPlanned(table, plan[k], embed);
      assert plan[..k + 1] == plan[..k] + [plan[k]];
      if !ok {
        assert plan == plan[..k] + [plan[k]] + plan[k + 1..];
        StepStops(plan[..k], [plan[k]], plan[k + 1..], embed, table.accepts);
        return false;
      }
      StepInserts(plan[..k], [plan[k]], embed, table.accepts);
      k := k + 1;
    }
    assert plan[..k] == plan;
    finished := true;
  }

  /** Running two plans one after the other is running their concatenation:
      the second runs only when the first completed. */
  lemma {:induction false} ExecuteAppend(a: seq<PlannedRow>, b: seq<PlannedRow>,
                                         embed: string -> Result<Vector>, accepts: StoredRow -> bool)
    ensures var ra := Execute(a, embed, accepts);
      var rb := Execute(b, embed, accepts);
      Execute(a + b, embed, accepts) == if ra.completed then Run(ra.rows + rb.rows, rb.completed) else ra
  {
    if |a| == 0 {
      assert a + b == b;
    } else {
      assert (a + b)[0] == a[0];
      assert (a + b)[1..] == a[1..] + b;
      if !Fails(a[0], embed, accepts) {
        ExecuteAppend(a[1..], b, embed, accepts);
        var head := [Stored(a[0], embed(a[0].chunk).value)];
        var r1 := Execute(a[1..], embed, accepts);
        var rb := Execute(b, embed, accepts);
        assert Execute(a, embed, accepts) == Run(head + r1.rows, r1.completed);
        assert Execute(a + b, embed, accepts) == Run(head + Execute(a[1..] + b, embed, accepts).rows,
                                                     Execute(a[1..] + b, embed, accepts).completed);
        if r1.completed {
          assert head + (r1.rows + rb.rows) == (head + r1.rows) + rb.rows;
        }
      }
    }
  }

  /** With a working embedding service and a database that accepts every row,
      every planned row is inserted. */
  lemma {:induction false} ExecuteAllAccepted(plan: seq<PlannedRow>, embed: string -> Result<Vector>,
                                              accepts: StoredRow -> bool)
    requires forall i :: 0 <= i < |plan| ==> !Fails(plan[i], embed, accepts)
    ensures Execute(plan, embed, accepts).completed
  {
    if |plan| > 0 {
      assert forall i :: 0 <= i < |plan[1..]| ==> plan[1..][i] == plan[i + 1];
      ExecuteAllAccepted(plan[1..], embed, accepts);
    }
  }

  /** A step of a row-by-row run that inserts all of its rows extends the
      inserted rows and keeps the run going. */
  lemma StepInserts(done: seq<PlannedRow>, step: seq<PlannedRow>, embed: string -> Result<Vector>,
                    accepts: StoredRow -> bool)
    requires Execute(done, embed, accepts).completed && Execute(step, embed, accepts).completed
    ensures Execute(done + step, embed, accepts) ==
            Run(Execute(done, embed, accepts).rows + Execute(step, embed, accepts).rows, true)
  {
    ExecuteAppend(done, step, embed, accepts);
  }

  /** A step that fails part-way ends the run: what it inserted stays, and
      whatever was planned after it is not inserted. */
  lemma StepStops(done: seq<PlannedRow>, step: seq<PlannedRow>, rest: seq<PlannedRow>,
                  embed: string -> Result<Vector>, accepts: StoredRow -> bool)
    requires Execute(done, embed, accepts).completed && !Execute(step, embed, accepts).completed
    ensures Execute(done + step + rest, embed, accepts) ==
            Run(Execute(done, embed, accepts).rows + Execute(step, embed, accepts).rows, false)
  {
    ExecuteAppend(done, step, embed, accepts);
    ExecuteAppend(done + step, rest, embed, accepts);
  }

  /** The planned rows of each input, one input after the other. */
  function ConcatMap<T>(xs: seq<T>, f: T -> seq<PlannedRow>): seq<PlannedRow> {
    if |xs| == 0 then [] else f(xs[0]) + ConcatMap(xs[1..], f)
  }

  lemma {:induction false} ConcatMapAppend<T>(xs: seq<T>, ys: seq<T>, f: T -> seq<PlannedRow>)
    ensures ConcatMap(xs + ys, f) == ConcatMap(xs, f) + ConcatMap(ys, f)
  {
    if |xs| == 0 {
      assert xs + ys == ys;
    } else {
      assert (xs + ys)[1..] == xs[1..] + ys;
      ConcatMapAppend(xs[1..], ys, f);
    }
  }

  /** The rows of the first `k + 1` inputs are those of the first `k`, then
      those of input `k`. */
  lemma ConcatMapPrefix<T>(xs: seq<T>, f: T -> seq<PlannedRow>, k: nat)
    requires k < |xs|
    ensures ConcatMap(xs[..k + 1], f) == ConcatMap(xs[..k], f) + f(xs[k])
  {
    assert xs[..k + 1] == xs[..k] + [xs[k]];
    ConcatMapAppend(xs[..k], [xs[k]], f);
    ConcatMapSingle(xs[k], f);
  }

  lemma ConcatMapSingle<T>(x: T, f: T -> seq<PlannedRow>)
    ensures ConcatMap([x], f) == f(x)
  {
    assert [x][1..] == [];
    assert ConcatMap([x], f) == f(x) + ConcatMap([], f);
  }

  /** The outcome of ingesting inputs one after the other, each inserting its
      planned rows (`rowsOf`) row by row: an input is reached only when every
      input before it completed. */
  function RunEach<T>(xs: seq<T>, rowsOf: T -> seq<PlannedRow>, embed: string -> Result<Vector>,
                      accepts: StoredRow -> bool): Run
  {
    if |xs| == 0 then Run([], true)
    else
      var before := RunEach(xs[..|xs| - 1], rowsOf, embed, accepts);
      if !before.completed then before
      else
        var last := Execute(rowsOf(xs[|xs| - 1]), embed, accepts);
        Run(before.rows + last.rows, last.completed)
  }

  /** One more input, reached after every input before it completed, adds
      the rows of its own run. */
  lemma RunEachStep<T>(xs: seq<T>, rowsOf: T -> seq<PlannedRow>, k: nat,
                       embed: string -> Result<Vector>, accepts: StoredRow -> bool)
    requires k < |xs| && RunEach(xs[..k], rowsOf, embed, accepts).completed
    ensures var last := Execute(rowsOf(xs[k]), embed, accepts);
      RunEach(xs[..k + 1], rowsOf, embed, accepts) ==
      Run(RunEach(xs[..k], rowsOf, embed, accepts).rows + last.rows, last.completed)
  {
    assert xs[..k + 1][..k] == xs[..k];
  }

  /** Once an input fails, the inputs after it change nothing. */
  lemma {:induction false} RunEachStopped<T>(xs: seq<T>, rowsOf: T -> seq<PlannedRow>, k: nat,
                                             embed: string -> Result<Vector>, accepts: StoredRow -> bool)
    requires k <= |xs| && !RunEach(xs[..k], rowsOf, embed, accepts).completed
    ensures RunEach(xs, rowsOf, embed, accepts) == RunEach(xs[..k], rowsOf, embed, accepts)
  {
    if k < |xs| {
      var init := xs[..|xs| - 1];
      assert init[..k] == xs[..k];
      RunEachStopped(init, rowsOf, k, embed, accepts);
    } else {
      assert xs[..k] == xs;
    }
  }

  /** Ingesting the inputs one after the other is running the concatenation
      of their planned rows. */
  lemma {:induction false} RunEachIsExecute<T>(xs: seq<T>, rowsOf: T -> seq<PlannedRow>,
                                               embed: string -> Result<Vector>, accepts: StoredRow -> bool)
    ensures RunEach(xs, rowsOf, embed, accepts) == Execute(ConcatMap(xs, rowsOf), embed, accepts)
  {
    if |xs| > 0 {
      var n := |xs| - 1;
      RunEachIsExecute(xs[..n], rowsOf, embed, accepts);
      ConcatMapPrefix(xs, rowsOf, n);
      assert xs[..n + 1] == xs;
      ExecuteAppend(ConcatMap(xs[..n], rowsOf), rowsOf(xs[n]), embed, accepts);
    }
  }

  /** A row is planned from the input that plans it. */
  lemma {:induction false} ConcatMapMember<T>(xs: seq<T>, f: T -> seq<PlannedRow>, r: PlannedRow)
    requires r in ConcatMap(xs, f)
    ensures exists i :: 0 <= i < |xs| && r in f(xs[i])
  {
    if r !in f(xs[0]) {
      ConcatMapMember(xs[1..], f, r);
      var i :| 0 <= i < |xs[1..]| && r in f(xs[1..][i]);
      assert xs[1..][i] == xs[i + 1];
    }
  }

  /** Every row an input plans is planned. */
  lemma {:induction false} ConcatMapHas<T>(xs: seq<T>, f: T -> seq<PlannedRow>, i: nat, r: PlannedRow)
    requires i < |xs| && r in f(xs[i])
    ensures r in ConcatMap(xs, f)
  {
    if i > 0 {
      assert xs[1..][i - 1] == xs[i];
      ConcatMapHas(xs[1..], f, i - 1, r);
    }
  }

  /** One row per chunk of a paper, in chunk order, each with the paper's
      title and summary unchanged. */
  function ChunkRows(title: string, summary: string, chunks: seq<string>, source: Option<string>): (rows: seq<PlannedRow>)
    ensures |rows| == |chunks|
    ensures forall k :: 0 <= k < |chunks| ==> rows[k] == PlannedRow(title, summary, chunks[k], source)
  {
    seq(|chunks|, k requires 0 <= k < |chunks| => PlannedRow(title, summary, chunks[k], source))
  }

  /** Embed planned row `p` and hand it to `insert_paper`, which commits it
      with whatever the transaction already held. */
  method InsertPlanned(table: PapersTable, p: PlannedRow, embed: string -> Result<Vector>) returns (ok: bool)
    modifies table
    ensures ok == Execute([p], embed, table.accepts).completed
    ensures ok ==> table.committed == old(table.committed) + old(table.pending) + Execute([p], embed, table.accepts).rows
                   && table.pending == []
    ensures !ok ==> table.committed == old(table.committed) && table.pending == old(table.pending)
  {
    var e := embed(p.chunk);
    if e.Err? {
      return false;
    }
    ok := InsertPaper(table, Stored(p, e.value));
  }
}
