/** Source-scoped retrieval: which filter applies, the query text and the
    parameters bound to its placeholders, and the projection of the rows the
    store returns. The store itself (nearest-neighbour ranking) is a parameter. */
module SourceRetrieval {
  import opened Common
  import opened Text
  import opened Sql
  import opened ChunkUtils

  const DefaultTopK := 5

  /** The WHERE clause of a filtered query: exact equality on `source`. */
  const FilterClause := "WHERE source = " + Placeholder

  /** `source_filter and source_filter != "all"`: no filter for `None`, for the
      empty string and for the sentinel "all". */
  predicate FilterApplies(sourceFilter: Option<string>)
    ensures !FilterApplies(sourceFilter) <==>
              sourceFilter == None || sourceFilter == Some("") || sourceFilter == Some("all")
  {
    sourceFilter.Some? && sourceFilter.value != "" && sourceFilter.value != "all"
  }

  /** The triple-quoted query text with `where_clause` and `top_k` spliced in. */
  function QueryText(whereClause: string, topK: int): string {
    Line(8, "SELECT chunk, source") + Line(8, "FROM papers") + Line(8, whereClause) +
    Line(8, "ORDER BY embedding <-> " + Placeholder + "::vector") + LimitLine(8, topK) + Line(4, "")
  }

  /** The query handed to `cursor.execute`: when a filter applies, the filter
      value is bound first (to the WHERE placeholder) and the embedding second
      (to the ORDER BY placeholder); otherwise only the embedding is bound. */
  function ExpectedQuery(embedding: Vector, topK: int, sourceFilter: Option<string>): Query {
    if FilterApplies(sourceFilter) then
      Query(QueryText(FilterClause, topK), [TextParam(sourceFilter.value), VectorParam(embedding)])
    else
      Query(QueryText("", topK), [VectorParam(embedding)])
  }

  /** Builds the query as the source does: start unfiltered, switch the clause
      and the parameter list when a filter applies, and pass the list reversed
      whenever there is a WHERE clause. */
  method BuildQuery(embedding: Vector, topK: int, sourceFilter: Option<string>) returns (q: Query)
    ensures q == ExpectedQuery(embedding, topK, sourceFilter)
  {
    var whereClause := "";
    var params := [VectorParam(embedding)];
    if sourceFilter.Some? && sourceFilter.value != "" && sourceFilter.value != "all" {
      whereClause := FilterClause;
      params := [VectorParam(embedding), TextParam(sourceFilter.value)];
    }
    var passed := if whereClause != "" then Reverse(params) else params;
    q := Query(QueryText(whereClause, topK), passed);
  }

  /** Every placeholder of the query gets exactly one parameter. */
  lemma QueryBindsEveryPlaceholder(embedding: Vector, topK: int, sourceFilter: Option<string>)
    ensures Binds(ExpectedQuery(embedding, topK, sourceFilter))
    ensures |ExpectedQuery(embedding, topK, sourceFilter).params| == if FilterApplies(sourceFilter) then 2 else 1
  {
    var whereClause := if FilterApplies(sourceFilter) then FilterClause else "";
    LineWithoutPlaceholder(8, "SELECT chunk, source");
    LineWithoutPlaceholder(8, "FROM papers");
    if FilterApplies(sourceFilter) {
      LineWithPlaceholder(8, "WHERE source = ", "");
      assert "WHERE source = " + Placeholder + "" == FilterClause;
    } else {
      LineWithoutPlaceholder(8, "");
    }
    LineWithPlaceholder(8, "ORDER BY embedding <-> ", "::vector");
    LimitLineWithoutPlaceholder(8, topK);
    LineWithoutPlaceholder(4, "");
    PlaceholdersOfLines(Line(8, "SELECT chunk, source"), Line(8, "FROM papers"), Line(8, whereClause),
                        Line(8, "ORDER BY embedding <-> " + Placeholder + "::vector"), LimitLine(8, topK), Line(4, ""));
  }

  /** With a filter, the first placeholder follows `source = ` and receives the
      filter value; the second follows the distance operator and receives the
      embedding. Nothing else in the text is a placeholder. */
  lemma FilteredQueryLayout(embedding: Vector, topK: int, sourceFilter: Option<string>)
    requires FilterApplies(sourceFilter)
    ensures var q := ExpectedQuery(embedding, topK, sourceFilter);
      var head := Line(8, "SELECT chunk, source") + Line(8, "FROM papers") + Line(8, "WHERE source = ");
      var middle := Line(8, "ORDER BY embedding <-> ");
      var tail := "::vector" + LimitLine(8, topK) + Line(4, "");
      q.text == head + Placeholder + middle + Placeholder + tail &&
      Placeholders(head) == 0 && Placeholders(middle) == 0 && Placeholders(tail) == 0 &&
      q.params == [TextParam(sourceFilter.value), VectorParam(embedding)]
  {
    RegroupQueryLines(Line(8, "SELECT chunk, source"), Line(8, "FROM papers"), "\n" + Spaces(8), "WHERE source = ",
            Placeholder, "ORDER BY embedding <-> ", "::vector", LimitLine(8, topK), Line(4, ""));
    HeadWithoutPlaceholder("WHERE source = ");
    LineWithoutPlaceholder(8, "ORDER BY embedding <-> ");
    TailWithoutPlaceholder(topK);
  }

  /** The select and from lines, then a where line without `%`, hold no placeholder. */
  lemma HeadWithoutPlaceholder(where: string)
    requires '%' !in where
    ensures Placeholders(Line(8, "SELECT chunk, source") + Line(8, "FROM papers") + Line(8, where)) == 0
  {
    LineWithoutPlaceholder(8, "SELECT chunk, source");
    LineWithoutPlaceholder(8, "FROM papers");
    LineWithoutPlaceholder(8, where);
    PlaceholdersOfThreeLines(Line(8, "SELECT chunk, source"), Line(8, "FROM papers"), Line(8, where));
  }

  /** Regrouping the lines of a query text around its placeholders. */
  lemma RegroupQueryLines(a: string, b: string, n: string, w: string, p: string, o: string, v: string, c: string, d: string)
    ensures a + b + (n + (w + p)) + (n + (o + p + v)) + c + d == a + b + (n + w) + p + (n + o) + p + (v + c + d)
    ensures a + b + (n + w) + (n + (o + p + v)) + c + d == a + b + (n + w) + (n + o) + p + (v + c + d)
  {
  }

  /** What follows the distance placeholder holds no placeholder. */
  lemma TailWithoutPlaceholder(topK: int)
    ensures Placeholders("::vector" + LimitLine(8, topK) + Line(4, "")) == 0
  {
    LimitLineWithoutPlaceholder(8, topK);
    LineWithoutPlaceholder(4, "");
    PlaceholdersNone("::vector");
    PlaceholdersOfThreeLines("::vector", LimitLine(8, topK), Line(4, ""));
  }

  /** Without a filter the only placeholder follows the distance operator and
      receives the embedding. */
  lemma UnfilteredQueryLayout(embedding: Vector, topK: int, sourceFilter: Option<string>)
    requires !FilterApplies(sourceFilter)
    ensures var q := ExpectedQuery(embedding, topK, sourceFilter);
      var head := Line(8, "SELECT chunk, source") + Line(8, "FROM papers") + Line(8, "") + Line(8, "ORDER BY embedding <-> ");
      var tail := "::vector" + LimitLine(8, topK) + Line(4, "");
      q.text == head + Placeholder + tail &&
      Placeholders(head) == 0 && Placeholders(tail) == 0 &&
      q.params == [VectorParam(embedding)]
  {
    var front := Line(8, "SELECT chunk, source") + Line(8, "FROM papers") + Line(8, "");
    RegroupQueryLines(Line(8, "SELECT chunk, source"), Line(8, "FROM papers"), "\n" + Spaces(8), "",
            Placeholder, "ORDER BY embedding <-> ", "::vector", LimitLine(8, topK), Line(4, ""));
    assert Line(8, "") == "\n" + Spaces(8) + "";
    HeadWithoutPlaceholder("");
    LineWithoutPlaceholder(8, "ORDER BY embedding <-> ");
    PlaceholdersThenLine(front, Line(8, "ORDER BY embedding <-> "));
    TailWithoutPlaceholder(topK);
  }

  /** The filter value never reaches the query text, only the parameters, so no
      value of it can change the query's structure. */
  lemma QueryTextIgnoresFilterValue(embedding: Vector, topK: int, f: Option<string>, g: Option<string>)
    requires FilterApplies(f) == FilterApplies(g)
    ensures ExpectedQuery(embedding, topK, f).text == ExpectedQuery(embedding, topK, g).text
  {
  }

  /** `retrieve_top_chunks(embedding, top_k=5, source_filter=None)`: runs the
      query against the store `db` and formats each row, keeping the store's
      order. A failing store call propagates its error. */
  method RetrieveTopChunks(db: Store, render: Row -> string,
                           embedding: Vector, topK: int := DefaultTopK,
                           sourceFilter: Option<string> := None)
    returns (r: Result<seq<Record>>)
    ensures var answer := db(ExpectedQuery(embedding, topK, sourceFilter));
      (answer.Err? ==> r == Err(answer.error)) &&
      (answer.Ok? ==>
         r.Ok? && |r.value| == |answer.value| &&
         forall i :: 0 <= i < |r.value| ==> r.value[i] == FormatChunk(answer.value[i], render))
  {
    var q := BuildQuery(embedding, topK, sourceFilter);
    var rows := db(q);
    if rows.Err? {
      return Err(rows.error);
    }
    var records := seq(|rows.value|, i requires 0 <= i < |rows.value| => FormatChunk(rows.value[i], render));
    r := Ok(records);
  }
}
