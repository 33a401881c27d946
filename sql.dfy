/** The parameterised queries the core hands to the database driver
    (`cursor.execute(text, params)`), and the layout of the triple-quoted
    query texts it writes. */
module Sql {
  import opened Common
  import opened Text

  /** A value bound to one `%s` placeholder. */
  datatype Param = VectorParam(v: Vector) | TextParam(s: string) | IntParam(n: int)

  datatype Query = Query(text: string, params: seq<Param>)

  /** A database that answers a query with the rows it selects, or raises.
      How it ranks and limits them is its own business. */
  type Store = Query -> Result<seq<Row>>

  /** The driver binds `params[i]` to the `i`-th placeholder; it refuses a query
      whose placeholder count and parameter count differ. */
  predicate Binds(q: Query) {
    Placeholders(q.text) == |q.params|
  }

  function Spaces(n: nat): (r: string)
    ensures |r| == n && forall i :: 0 <= i < n ==> r[i] == ' '
  {
    seq(n, _ => ' ')
  }

  /** One line of a triple-quoted query text: a line break, the indentation,
      then the line's content. */
  function Line(indent: nat, content: string): (r: string)
    ensures |r| > 0 && r[0] == '\n'
  {
    "\n" + Spaces(indent) + content
  }

  /** A line without `%` holds no placeholder. */
  lemma LineWithoutPlaceholder(indent: nat, content: string)
    requires '%' !in content
    ensures Placeholders(Line(indent, content)) == 0
  {
    var s := Spaces(indent);
    assert '%' !in s;
    PlaceholdersNone(Line(indent, content));
  }

  /** A line whose content is `before + "%s" + after`, neither part holding
      a `%`, holds exactly one placeholder. */
  lemma LineWithPlaceholder(indent: nat, before: string, after: string)
    requires '%' !in before && '%' !in after
    ensures Placeholders(Line(indent, before + Placeholder + after)) == 1
  {
    var head := "\n" + Spaces(indent) + before;
    assert '%' !in Spaces(indent);
    assert '%' !in head;
    assert Line(indent, before + Placeholder + after) == (head + Placeholder) + after;
    PlaceholdersNone(head);
    PlaceholdersNone(after);
    PlaceholdersConcat(head, Placeholder);
    PlaceholdersConcat(head + Placeholder, after);
  }

  /** The `LIMIT` line: `str(limit)` is spliced into the text, not bound. */
  function LimitLine(indent: nat, limit: int): string {
    Line(indent, "LIMIT " + Decimal(limit) + ";")
  }

  lemma LimitLineWithoutPlaceholder(indent: nat, limit: int)
    ensures Placeholders(LimitLine(indent, limit)) == 0
  {
    var d := Decimal(limit);
    assert forall i :: 0 <= i < |d| ==> d[i] != '%';
    LineWithoutPlaceholder(indent, "LIMIT " + d + ";");
  }

  /** The placeholders of a text made of lines are those of its lines. */
  lemma PlaceholdersOfLines(a: string, b: string, c: string, d: string, e: string, f: string)
    requires |b| > 0 && b[0] == '\n' && |c| > 0 && c[0] == '\n' && |d| > 0 && d[0] == '\n'
    requires |e| > 0 && e[0] == '\n' && |f| > 0 && f[0] == '\n'
    ensures Placeholders(a + b + c + d + e + f) ==
            Placeholders(a) + Placeholders(b) + Placeholders(c) + Placeholders(d) + Placeholders(e) + Placeholders(f)
  {
    PlaceholdersThenLine(a, b);
    PlaceholdersThenLine(a + b, c);
    PlaceholdersThenLine(a + b + c, d);
    PlaceholdersThenLine(a + b + c + d, e);
    PlaceholdersThenLine(a + b + c + d + e, f);
  }

  lemma PlaceholdersOfThreeLines(a: string, b: string, c: string)
    requires |b| > 0 && b[0] == '\n' && |c| > 0 && c[0] == '\n'
    ensures Placeholders(a + b + c) == Placeholders(a) + Placeholders(b) + Placeholders(c)
  {
    PlaceholdersThenLine(a, b);
    PlaceholdersThenLine(a + b, c);
  }

  /** Appending a line (which starts with a line break) adds its placeholders. */
  lemma PlaceholdersThenLine(a: string, line: string)
    requires |line| > 0 && line[0] == '\n'
    ensures Placeholders(a + line) == Placeholders(a) + Placeholders(line)
  {
    PlaceholdersConcat(a, line);
  }
}
