/** `check_schema.py`: the columns the `papers` table must have, the ones it
    lacks, and the verdict reported. */
module CheckSchema {
  /** `required` */
  const Required: set<string> := {"chunk", "summary", "embedding"}

  /** `required - set(columns)` */
  function Missing(columns: seq<string>): (missing: set<string>)
    ensures missing <= Required
    ensures forall c :: c in missing <==> c in Required && c !in columns
  {
    Required - set c | c in columns
  }

  /** What the script reports. */
  datatype Verdict = SchemaOk | MissingColumns(missing: set<string>)

  /** `if missing: ... else: ...` */
  function Check(columns: seq<string>): (v: Verdict)
    ensures v.SchemaOk? <==> forall c :: c in Required ==> c in columns
    ensures v.MissingColumns? ==> v.missing == Missing(columns) && v.missing != {}
  {
    var missing := Missing(columns);
    if missing != {} then MissingColumns(missing) else SchemaOk
  }

  /** The three required columns are exactly "chunk", "summary" and "embedding". */
  lemma RequiredColumns()
    ensures |Required| == 3
    ensures forall c :: c in Required <==> c == "chunk" || c == "summary" || c == "embedding"
  {
    assert "chunk" != "summary" by { assert "chunk"[1] != "summary"[1]; }
    assert "chunk" != "embedding" by { assert "chunk"[0] != "embedding"[0]; }
    assert "summary" != "embedding" by { assert "summary"[0] != "embedding"[0]; }
  }

  /** Extra columns are never reported: adding columns outside the required
      set leaves the verdict unchanged. */
  lemma ExtraColumnsIgnored(columns: seq<string>, extra: seq<string>)
    requires forall c :: c in extra ==> c !in Required
    ensures Check(columns + extra) == Check(columns)
  {
    assert Missing(columns + extra) == Missing(columns);
  }

  /** The verdict depends only on which names occur: neither the order of
      the listed columns nor repeated names change it. */
  lemma VerdictIgnoresOrderAndDuplicates(a: seq<string>, b: seq<string>)
    requires forall c :: c in a <==> c in b
    ensures Check(a) == Check(b)
  {
    assert Missing(a) == Missing(b);
  }

  /** A table holding every required column passes, whatever else it holds. */
  lemma AllRequiredPasses(columns: seq<string>)
    requires "chunk" in columns && "summary" in columns && "embedding" in columns
    ensures Check(columns) == SchemaOk
  {
    RequiredColumns();
  }
}
