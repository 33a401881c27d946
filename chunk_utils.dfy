/** `format_chunk`: the record a retrieved row becomes in the API response. */
module ChunkUtils {
  import opened Common

  /** A Python `dict` from key to value. */
  type Record = map<string, Value>

  /** A pair `(chunk, source)` becomes `{"text": chunk, "source": source}`;
      a tuple of any other length becomes `{"text": str(row), "source": "unknown"}`.
      `render` is Python's `str` on a tuple. */
  function FormatChunk(row: Row, render: Row -> string): (r: Record)
    ensures r.Keys == {"text", "source"}
    ensures |row| == 2 ==> r["text"] == row[0] && r["source"] == row[1]
    ensures |row| != 2 ==> r["text"] == StrValue(render(row)) && r["source"] == StrValue("unknown")
  {
    if |row| == 2 then map["text" := row[0], "source" := row[1]]
    else map["text" := StrValue(render(row)), "source" := StrValue("unknown")]
  }
}
