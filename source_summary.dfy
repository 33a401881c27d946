/** `count_sources` of `scripts/source_summary.py`: the `source` column of
    every row, a NULL or empty source read as "unknown", tallied by a
    `Counter` whose entries are then reported one per distinct label, in
    order of first appearance. */
module SourceSummary {
  import opened Common
  import opened Sql

  const UnknownLabel := "unknown"

  /** `SELECT source FROM papers` */
  const SourcesQuery := Query("SELECT source FROM papers", [])

  /** `row[0] or "unknown"`: NULL and the empty string are both false in
      Python, so both read as "unknown"; any other source is its own label. */
  function Label(v: Value): (l: string)
    ensures l != ""
    ensures v.StrValue? && v.s != "" ==> l == v.s
    ensures v.NoneValue? || v.s == "" ==> l == UnknownLabel
  {
    match v
    case NoneValue => UnknownLabel
    case StrValue(s) => if s == "" then UnknownLabel else s
  }

  /** `[row[0] or "unknown" for row in results]`; a row without columns
      raises `IndexError`. */
  function Labels(rows: seq<Row>): (r: Result<seq<string>>)
    ensures r.Ok? <==> forall i :: 0 <= i < |rows| ==> |rows[i]| > 0
    ensures r.Ok? ==> |r.value| == |rows| && forall i :: 0 <= i < |rows| ==> r.value[i] == Label(rows[i][0])
  {
    if exists i :: 0 <= i < |rows| && |rows[i]| == 0 then Err(Error("tuple index out of range"))
    else Ok(seq(|rows|, i requires 0 <= i < |rows| => Label(rows[i][0])))
  }

  /** A `Counter`: its labels in order of first appearance (the order
      `counts.items()` yields them) and the count of each. */
  datatype Counter = Counter(order: seq<string>, counts: map<string, nat>)

  /** Counting one more occurrence of `l`: a new label is appended with count 1. */
  function Add(c: Counter, l: string): Counter {
    if l in c.counts then Counter(c.order, c.counts[l := c.counts[l] + 1])
    else Counter(c.order + [l], c.counts[l := 1])
  }

  /** `Counter(labels)`: the labels counted one after the other. */
  function Tally(labels: seq<string>): Counter {
    if |labels| == 0 then Counter([], map[])
    else Add(Tally(labels[..|labels| - 1]), labels[|labels| - 1])
  }

  /** The count of `l`, zero when absent. */
  function CountOf(counts: map<string, nat>, l: string): nat {
    if l in counts then counts[l] else 0
  }

  /** The sum of the counts of the labels of `order`. */
  function Total(order: seq<string>, counts: map<string, nat>): nat {
    if |order| == 0 then 0 else CountOf(counts, order[0]) + Total(order[1..], counts)
  }

  predicate Distinct(xs: seq<string>) {
    forall i, j :: 0 <= i < j < |xs| ==> xs[i] != xs[j]
  }

  lemma {:induction false} TotalSnoc(order: seq<string>, counts: map<string, nat>, l: string)
    ensures Total(order + [l], counts) == Total(order, counts) + CountOf(counts, l)
  {
    if |order| > 0 {
      assert (order + [l])[1..] == order[1..] + [l];
      TotalSnoc(order[1..], counts, l);
    } else {
      assert [l][1..] == [];
    }
  }

  /** Changing the count of a label outside `order` leaves the total alone. */
  lemma {:induction false} TotalOutside(order: seq<string>, counts: map<string, nat>, l: string, n: nat)
    requires l !in order
    ensures Total(order, counts[l := n]) == Total(order, counts)
  {
    if |order| > 0 {
      TotalOutside(order[1..], counts, l, n);
    }
  }

  /** One more occurrence of a label listed once in `order` adds one to the total. */
  lemma {:induction false} TotalBump(order: seq<string>, counts: map<string, nat>, l: string)
    requires Distinct(order) && l in order && l in counts
    ensures Total(order, counts[l := counts[l] + 1]) == Total(order, counts) + 1
  {
    if order[0] == l {
      assert l !in order[1..];
      TotalOutside(order[1..], counts, l, counts[l] + 1);
    } else {
      TotalBump(order[1..], counts, l);
    }
  }

  /** The tally holds exactly the labels counted, in its order and in its counts. */
  lemma {:induction false} TallyMembers(labels: seq<string>)
    ensures forall l :: l in Tally(labels).order <==> l in labels
    ensures forall l :: l in Tally(labels).counts <==> l in labels
  {
    if |labels| > 0 {
      var init := labels[..|labels| - 1];
      assert labels == init + [labels[|labels| - 1]];
      TallyMembers(init);
    }
  }

  /** The tally lists no label twice, and its counts add up to the number of labels. */
  lemma {:induction false} TallyTotal(labels: seq<string>)
    ensures Distinct(Tally(labels).order)
    ensures Total(Tally(labels).order, Tally(labels).counts) == |labels|
  {
    if |labels| > 0 {
      var init := labels[..|labels| - 1];
      var l := labels[|labels| - 1];
      TallyTotal(init);
      TallyMembers(init);
      var c := Tally(init);
      if l in c.counts {
        TotalBump(c.order, c.counts, l);
      } else {
        TotalSnoc(c.order, c.counts[l := 1], l);
        TotalOutside(c.order, c.counts, l, 1);
      }
    }
  }

  /** Each label is counted as often as it occurs. */
  lemma {:induction false} TallyMultiset(labels: seq<string>)
    ensures forall l :: l in Tally(labels).counts ==> Tally(labels).counts[l] == multiset(labels)[l]
  {
    if |labels| > 0 {
      var init := labels[..|labels| - 1];
      var l := labels[|labels| - 1];
      assert labels == init + [l];
      TallyMultiset(init);
      TallyMembers(init);
    }
  }

  /** The tally lists every label exactly once, counts each as often as it
      occurs, and its counts add up to the number of labels. */
  lemma TallyCounts(labels: seq<string>)
    ensures var c := Tally(labels);
      Distinct(c.order) &&
      (forall l :: l in c.order <==> l in labels) &&
      (forall l :: l in c.counts <==> l in labels) &&
      (forall l :: l in c.counts ==> c.counts[l] == multiset(labels)[l]) &&
      Total(c.order, c.counts) == |labels|
  {
    TallyMembers(labels);
    TallyTotal(labels);
    TallyMultiset(labels);
  }

  /** The position where `x` first occurs in `s`. */
  function FirstIndex(s: seq<string>, x: string): (k: nat)
    requires x in s
    ensures k < |s| && s[k] == x && x !in s[..k]
  {
    if s[0] == x then 0
    else
      var k := 1 + FirstIndex(s[1..], x);
      assert s[..k] == [s[0]] + s[1..][..k - 1];
      k
  }

  /** A label already present keeps its first position when another label follows. */
  lemma {:induction false} FirstIndexSnoc(s: seq<string>, y: string, x: string)
    requires x in s
    ensures FirstIndex(s + [y], x) == FirstIndex(s, x)
  {
    if s[0] != x {
      assert (s + [y])[1..] == s[1..] + [y];
      FirstIndexSnoc(s[1..], y, x);
    }
  }

  /** `order` lists labels of `s`, each before any label whose first
      occurrence in `s` comes later. */
  predicate InFirstAppearanceOrder(s: seq<string>, order: seq<string>) {
    (forall x :: x in order ==> x in s) &&
    forall i, j :: 0 <= i < j < |order| ==> FirstIndex(s, order[i]) < FirstIndex(s, order[j])
  }

  /** Appending a label to `s` keeps the order of the labels already seen. */
  lemma FirstAppearanceSnoc(s: seq<string>, y: string, order: seq<string>)
    requires InFirstAppearanceOrder(s, order)
    ensures InFirstAppearanceOrder(s + [y], order)
  {
    forall x | x in order ensures FirstIndex(s + [y], x) == FirstIndex(s, x) {
      FirstIndexSnoc(s, y, x);
    }
  }

  /** A label seen for the first time goes after every label seen before. */
  lemma FirstAppearanceNew(s: seq<string>, y: string, order: seq<string>)
    requires y !in s && InFirstAppearanceOrder(s, order)
    ensures InFirstAppearanceOrder(s + [y], order + [y])
  {
    FirstAppearanceSnoc(s, y, order);
    assert FirstIndex(s + [y], y) == |s|;
    forall x | x in order ensures FirstIndex(s + [y], x) < |s| {
      FirstIndexSnoc(s, y, x);
    }
  }

  /** The tally lists its labels in order of first appearance among the
      counted labels, the order `counts.items()` yields them. */
  lemma {:induction false} TallyFirstAppearance(labels: seq<string>)
    ensures InFirstAppearanceOrder(labels, Tally(labels).order)
  {
    if |labels| > 0 {
      var init := labels[..|labels| - 1];
      var l := labels[|labels| - 1];
      assert labels == init + [l];
      TallyFirstAppearance(init);
      TallyMembers(init);
      if l in Tally(init).counts {
        FirstAppearanceSnoc(init, l, Tally(init).order);
      } else {
        FirstAppearanceNew(init, l, Tally(init).order);
      }
    }
  }

  /** The counts do not depend on the order of the rows, only on how often
      each label occurs. */
  lemma CountsIgnoreOrder(a: seq<string>, b: seq<string>)
    requires multiset(a) == multiset(b)
    ensures Tally(a).counts == Tally(b).counts
  {
    TallyCounts(a);
    TallyCounts(b);
    forall l ensures l in a <==> l in b {
      assert l in a <==> l in multiset(a);
      assert l in b <==> l in multiset(b);
    }
  }

  /** `Counter(sources)`: count the labels one by one. */
  method Count(labels: seq<string>) returns (c: Counter)
    ensures c == Tally(labels)
  {
    c := Counter([], map[]);
    for i := 0 to |labels|
      invariant c == Tally(labels[..i])
    {
      assert labels[..i + 1][..i] == labels[..i];
      var l := labels[i];
      if l in c.counts {
        c := Counter(c.order, c.counts[l := c.counts[l] + 1]);
      } else {
        c := Counter(c.order + [l], c.counts[l := 1]);
      }
    }
    assert labels[..|labels|] == labels;
  }

  /** What `count_sources` reports: the breakdown, or the error it caught. */
  datatype Summary = Breakdown(counter: Counter) | Failed(error: Error)

  /** `count_sources()`: select every source, label and count them; a failing
      query or a row without columns is caught and reported instead. */
  method CountSources(db: Store) returns (s: Summary)
    ensures db(SourcesQuery).Err? ==> s == Failed(db(SourcesQuery).error)
    ensures db(SourcesQuery).Ok? ==>
              var labels := Labels(db(SourcesQuery).value);
              (labels.Err? ==> s == Failed(labels.error)) &&
              (labels.Ok? ==> s == Breakdown(Tally(labels.value)))
  {
    var results := db(SourcesQuery);
    if results.Err? {
      return Failed(results.error);
    }
    var labels := Labels(results.value);
    if labels.Err? {
      return Failed(labels.error);
    }
    var counter := Count(labels.value);
    s := Breakdown(counter);
  }

  /** A breakdown over the selected rows has one entry per distinct label,
      each row counted once, NULL and empty sources under "unknown". */
  lemma BreakdownCountsEveryRow(rows: seq<Row>)
    requires Labels(rows).Ok?
    ensures var c := Tally(Labels(rows).value);
      Distinct(c.order) && Total(c.order, c.counts) == |rows| &&
      (forall i :: 0 <= i < |rows| ==> Label(rows[i][0]) in c.order) &&
      (forall l :: l in c.order ==> exists i :: 0 <= i < |rows| && Label(rows[i][0]) == l)
  {
    var labels := Labels(rows).value;
    TallyCounts(labels);
    forall i | 0 <= i < |rows| ensures Label(rows[i][0]) in Tally(labels).order {
      assert labels[i] in labels;
    }
    forall l | l in Tally(labels).order ensures exists i :: 0 <= i < |rows| && Label(rows[i][0]) == l {
      var i :| 0 <= i < |labels| && labels[i] == l;
    }
  }
}
