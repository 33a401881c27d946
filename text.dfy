/** The behaviour of the few Python `str` operations the core relies on:
    `sep.join(xs)`, `s.split(c)` for a one-character separator, `s.strip()`,
    `s.endswith(suffix)`, `str(n)` for an integer, and the `%s` placeholders a
    DB-API driver looks for in a query text. */
module Text {

  // ---------------------------------------------------------------- join

  /** `sep.join(xs)` */
  function Join(sep: string, xs: seq<string>): string
    decreases |xs|
  {
    if |xs| == 0 then "" else if |xs| == 1 then xs[0] else xs[0] + sep + Join(sep, xs[1..])
  }

  /** The position at which item `i` of `xs` starts inside `Join(sep, xs)`. */
  function Offset(sep: string, xs: seq<string>, i: nat): nat
    requires i <= |xs|
  {
    if i == 0 then 0 else |xs[0]| + |sep| + Offset(sep, xs[1..], i - 1)
  }

  lemma SliceAfter(a: string, b: string, x: nat, y: nat)
    requires x <= y <= |b|
    ensures (a + b)[|a| + x .. |a| + y] == b[x..y]
  {
  }

  /** Consecutive items are `|sep|` apart. */
  lemma {:induction false} OffsetStep(sep: string, xs: seq<string>, i: nat)
    requires i + 1 <= |xs|
    ensures Offset(sep, xs, i + 1) == Offset(sep, xs, i) + |xs[i]| + |sep|
  {
    if i > 0 {
      OffsetStep(sep, xs[1..], i - 1);
      assert xs[1..][i - 1] == xs[i];
    }
  }

  /** `Join` lays the items out in order: item `i` sits at `Offset(sep, xs, i)`. */
  lemma {:induction false} JoinItemAt(sep: string, xs: seq<string>, i: nat)
    requires i < |xs|
    ensures Offset(sep, xs, i) + |xs[i]| <= |Join(sep, xs)|
    ensures Join(sep, xs)[Offset(sep, xs, i) .. Offset(sep, xs, i) + |xs[i]|] == xs[i]
  {
    if |xs| > 1 {
      var rest := Join(sep, xs[1..]);
      assert Join(sep, xs) == (xs[0] + sep) + rest;
      if i > 0 {
        JoinItemAt(sep, xs[1..], i - 1);
        assert xs[1..][i - 1] == xs[i];
        var o := Offset(sep, xs[1..], i - 1);
        SliceAfter(xs[0] + sep, rest, o, o + |xs[i]|);
      }
    }
  }

  /** Regrouping six concatenated texts around their middle pieces. */
  lemma Regroup(a: string, b: string, c: string, d: string, e: string, f: string)
    ensures a + b + c + d + e + f == (a + b) + c + (d + e + f)
    ensures a + b + c + d + e + f == (a + b + c + d) + e + f
  {
  }

  lemma SliceOfMiddle(a: string, b: string, c: string, x: nat, y: nat)
    requires x <= y <= |b|
    ensures (a + b + c)[|a| + x .. |a| + y] == b[x..y]
  {
    assert a + b + c == a + (b + c);
  }

  /** An item of a join stays whole when the join is framed by other text. */
  lemma ItemBetween(head: string, sep: string, xs: seq<string>, tail: string, i: nat)
    requires i < |xs|
    ensures var start := |head| + Offset(sep, xs, i);
      start + |xs[i]| <= |head + Join(sep, xs) + tail| &&
      (head + Join(sep, xs) + tail)[start .. start + |xs[i]|] == xs[i]
  {
    var o := Offset(sep, xs, i);
    JoinItemAt(sep, xs, i);
    SliceOfMiddle(head, Join(sep, xs), tail, o, o + |xs[i]|);
  }

  /** The separator after item `i` stays whole when the join is framed by other text. */
  lemma SeparatorBetween(head: string, sep: string, xs: seq<string>, tail: string, i: nat)
    requires i + 1 < |xs|
    ensures var end := |head| + Offset(sep, xs, i) + |xs[i]|;
      end + |sep| <= |head + Join(sep, xs) + tail| &&
      (head + Join(sep, xs) + tail)[end .. end + |sep|] == sep
  {
    var o := Offset(sep, xs, i) + |xs[i]|;
    JoinSeparatorAt(sep, xs, i);
    SliceOfMiddle(head, Join(sep, xs), tail, o, o + |sep|);
  }

  /** Between item `i` and item `i + 1` stands exactly the separator. */
  lemma {:induction false} JoinSeparatorAt(sep: string, xs: seq<string>, i: nat)
    requires i + 1 < |xs|
    ensures Offset(sep, xs, i + 1) == Offset(sep, xs, i) + |xs[i]| + |sep|
    ensures Offset(sep, xs, i + 1) <= |Join(sep, xs)|
    ensures Join(sep, xs)[Offset(sep, xs, i) + |xs[i]| .. Offset(sep, xs, i + 1)] == sep
  {
    OffsetStep(sep, xs, i);
    var rest := Join(sep, xs[1..]);
    assert Join(sep, xs) == (xs[0] + sep) + rest;
    if i == 0 {
      assert Offset(sep, xs, 0) == 0;
    } else {
      JoinSeparatorAt(sep, xs[1..], i - 1);
      OffsetStep(sep, xs[1..], i - 1);
      assert xs[1..][i - 1] == xs[i];
      var o := Offset(sep, xs[1..], i - 1);
      SliceAfter(xs[0] + sep, rest, o + |xs[i]|, o + |xs[i]| + |sep|);
    }
  }

  /** The joined text ends exactly where its last item ends. */
  lemma {:induction false} JoinLength(sep: string, xs: seq<string>)
    requires |xs| > 0
    ensures |Join(sep, xs)| == Offset(sep, xs, |xs| - 1) + |xs[|xs| - 1]|
  {
    if |xs| > 1 {
      JoinLength(sep, xs[1..]);
      assert xs[1..][|xs[1..]| - 1] == xs[|xs| - 1];
    }
  }

  // ---------------------------------------------------------------- split

  /** `s.split(c)` for a one-character separator `c`. */
  function Split(s: string, c: char): (parts: seq<string>)
    ensures |parts| >= 1
  {
    if |s| == 0 then [""]
    else
      var rest := Split(s[1..], c);
      if s[0] == c then [""] + rest else [[s[0]] + rest[0]] + rest[1..]
  }

  /** No part holds the separator, and there is one part more than separators. */
  lemma {:induction false} SplitParts(s: string, c: char)
    ensures forall p :: p in Split(s, c) ==> c !in p
    ensures |Split(s, c)| == multiset(s)[c] + 1
  {
    if |s| > 0 {
      SplitParts(s[1..], c);
      assert s == [s[0]] + s[1..];
      var rest := Split(s[1..], c);
      if s[0] != c {
        assert forall p :: p in rest[1..] ==> p in rest;
        assert rest[0] in rest;
      }
    }
  }

  lemma {:induction false} SplitWithout(a: string, c: char)
    requires c !in a
    ensures Split(a, c) == [a]
  {
    if |a| > 0 {
      SplitWithout(a[1..], c);
      assert [a[0]] + a[1..] == a;
    }
  }

  lemma {:induction false} SplitAfter(a: string, b: string, c: char)
    requires c !in a
    ensures Split(a + [c] + b, c) == [a] + Split(b, c)
  {
    if |a| == 0 {
      assert a + [c] + b == [c] + b;
      assert ([c] + b)[1..] == b;
    } else {
      SplitAfter(a[1..], b, c);
      assert (a + [c] + b)[1..] == a[1..] + [c] + b;
      assert [a[0]] + a[1..] == a;
    }
  }

  /** Splitting at the separator undoes a join, as long as no item contains it. */
  lemma {:induction false} SplitJoin(c: char, xs: seq<string>)
    requires |xs| > 0
    requires forall x :: x in xs ==> c !in x
    ensures Split(Join([c], xs), c) == xs
  {
    if |xs| == 1 {
      SplitWithout(xs[0], c);
    } else {
      SplitJoin(c, xs[1..]);
      SplitAfter(xs[0], Join([c], xs[1..]), c);
      assert [xs[0]] + xs[1..] == xs;
    }
  }

  /** A join with a one-character separator holds one fewer separators than items,
      when no item contains the separator. */
  lemma {:induction false} JoinSeparatorCount(c: char, xs: seq<string>)
    requires |xs| > 0
    requires forall x :: x in xs ==> c !in x
    ensures multiset(Join([c], xs))[c] == |xs| - 1
  {
    SplitJoin(c, xs);
    SplitParts(Join([c], xs), c);
  }

  // ---------------------------------------------------------------- strip

  /** The characters Python's `str.isspace()` accepts, which `str.strip()`
      with no argument removes. */
  predicate IsSpace(ch: char) {
    ('\U{0009}' <= ch <= '\U{000D}') || ('\U{001C}' <= ch <= '\U{0020}') ||
    ch == '\U{0085}' || ch == '\U{00A0}' || ch == '\U{1680}' ||
    ('\U{2000}' <= ch <= '\U{200A}') || ch == '\U{2028}' || ch == '\U{2029}' ||
    ch == '\U{202F}' || ch == '\U{205F}' || ch == '\U{3000}'
  }

  /** `s.strip()`: `s` without its leading and its trailing whitespace. */
  function Strip(s: string): string {
    if |s| > 0 && IsSpace(s[0]) then Strip(s[1..])
    else if |s| > 0 && IsSpace(s[|s| - 1]) then Strip(s[..|s| - 1])
    else s
  }

  /** `s.strip()` is the slice of `s` that starts at `a`, and everything of `s`
      before and after that slice is whitespace. */
  lemma {:induction false} StripSlice(s: string) returns (a: nat)
    ensures a + |Strip(s)| <= |s| && Strip(s) == s[a .. a + |Strip(s)|]
    ensures forall i :: 0 <= i < a ==> IsSpace(s[i])
    ensures forall i :: a + |Strip(s)| <= i < |s| ==> IsSpace(s[i])
  {
    if |s| > 0 && IsSpace(s[0]) {
      var b := StripSlice(s[1..]);
      a := b + 1;
      forall i | 1 <= i < a ensures IsSpace(s[i]) {
        assert s[i] == s[1..][i - 1];
      }
      forall i | a + |Strip(s)| <= i < |s| ensures IsSpace(s[i]) {
        assert s[i] == s[1..][i - 1];
      }
    } else if |s| > 0 && IsSpace(s[|s| - 1]) {
      a := StripSlice(s[..|s| - 1]);
    } else {
      a := 0;
    }
  }

  /** `s.strip()` neither starts nor ends with whitespace. */
  lemma {:induction false} StripEnds(s: string)
    ensures Strip(s) == [] || (!IsSpace(Strip(s)[0]) && !IsSpace(Strip(s)[|Strip(s)| - 1]))
  {
    if |s| > 0 && IsSpace(s[0]) {
      StripEnds(s[1..]);
    } else if |s| > 0 && IsSpace(s[|s| - 1]) {
      StripEnds(s[..|s| - 1]);
    }
  }

  /** `s.strip()` is empty exactly when `s` consists of whitespace only. */
  lemma StripEmptyIff(s: string)
    ensures Strip(s) == [] <==> forall i :: 0 <= i < |s| ==> IsSpace(s[i])
  {
    var a := StripSlice(s);
    StripEnds(s);
    if Strip(s) != [] {
      assert Strip(s)[0] == s[a];
    }
  }

  /** Stripping twice changes nothing more. */
  lemma StripIdempotent(s: string)
    ensures Strip(Strip(s)) == Strip(s)
  {
    StripEnds(s);
  }

  // ---------------------------------------------------------------- endswith

  /** `s.endswith(suffix)` */
  predicate EndsWith(s: string, suffix: string) {
    |suffix| <= |s| && s[|s| - |suffix|..] == suffix
  }

  // ---------------------------------------------------------------- str(int)

  function DigitChar(d: nat): (ch: char)
    requires d < 10
    ensures '0' <= ch <= '9' && ch as int - '0' as int == d
  {
    ('0' as int + d) as char
  }

  /** The decimal digits of `n`, most significant first, without leading zeros. */
  function Digits(n: nat): (r: string)
    ensures |r| >= 1
    ensures forall i :: 0 <= i < |r| ==> '0' <= r[i] <= '9'
    ensures r[0] == '0' ==> n == 0
  {
    if n < 10 then [DigitChar(n)] else Digits(n / 10) + [DigitChar(n % 10)]
  }

  /** `str(n)` for a Python `int`. */
  function Decimal(n: int): (r: string)
    ensures |r| >= 1
    ensures forall i :: 0 <= i < |r| ==> r[i] == '-' || '0' <= r[i] <= '9'
  {
    if n < 0 then "-" + Digits(-n) else Digits(n)
  }

  /** Reading decimal digits back, most significant first. */
  function ParseDigits(s: string): int {
    if |s| == 0 then 0
    else ParseDigits(s[..|s| - 1]) * 10 + (s[|s| - 1] as int - '0' as int)
  }

  /** `int(str(n)) == n` */
  lemma {:induction false} ParseDecimal(n: int)
    ensures if n < 0 then Decimal(n)[0] == '-' && -ParseDigits(Decimal(n)[1..]) == n
            else ParseDigits(Decimal(n)) == n
  {
    var m: nat := if n < 0 then -n else n;
    ParseDigitsOf(m);
    if n < 0 {
      assert Decimal(n)[1..] == Digits(m);
    }
  }

  lemma {:induction false} ParseDigitsOf(n: nat)
    ensures ParseDigits(Digits(n)) == n
  {
    if n >= 10 {
      ParseDigitsOf(n / 10);
      var d := Digits(n);
      assert d[..|d| - 1] == Digits(n / 10);
      assert d[|d| - 1] as int - '0' as int == n % 10;
      assert ParseDigits(d) == (n / 10) * 10 + n % 10;
    }
  }

  // ---------------------------------------------------------------- %s placeholders

  /** The `%s` paramstyle placeholder of psycopg2. */
  const Placeholder := "%s"

  /** The number of `%s` placeholders in a query text. */
  function Placeholders(s: string): nat {
    if |s| < 2 then 0
    else (if s[0] == '%' && s[1] == 's' then 1 else 0) + Placeholders(s[1..])
  }

  /** Joining two texts adds their placeholders, unless a `%` at the end of the
      first meets an `s` at the start of the second. */
  lemma {:induction false} PlaceholdersConcat(a: string, b: string)
    requires a == [] || b == [] || a[|a| - 1] != '%' || b[0] != 's'
    ensures Placeholders(a + b) == Placeholders(a) + Placeholders(b)
  {
    if |a| == 0 {
      assert a + b == b;
    } else if |a| == 1 {
      assert (a + b)[1..] == b;
    } else {
      PlaceholdersConcat(a[1..], b);
      assert (a + b)[1..] == a[1..] + b;
    }
  }

  /** A text without `%` holds no placeholder. */
  lemma {:induction false} PlaceholdersNone(s: string)
    requires '%' !in s
    ensures Placeholders(s) == 0
  {
    if |s| >= 2 {
      PlaceholdersNone(s[1..]);
    }
  }
}
