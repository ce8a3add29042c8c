/** Text primitives of the link canonicaliser: ASCII case, splitting, decimal ports and byte-wise ordering. */
module Text {
  import opened Common

  // ---------------------------------------------------------------- characters

  /** ASCII white space and control characters. */
  predicate Forbidden(c: char) { c <= ' ' || c == 127 as char }

  predicate Clean(s: string) { forall i | 0 <= i < |s| :: !Forbidden(s[i]) }

  function LowerChar(c: char): char { if 'A' <= c <= 'Z' then (c as int + 32) as char else c }

  /** `to_ascii_lowercase`. */
  function Lower(s: string): (r: string)
    ensures |r| == |s| && forall i | 0 <= i < |s| :: r[i] == LowerChar(s[i])
  {
    seq(|s|, i requires 0 <= i < |s| => LowerChar(s[i]))
  }

  lemma LowerTwice(s: string)
    ensures Lower(Lower(s)) == Lower(s)
  {
  }

  // ---------------------------------------------------------------- splitting

  /** `split_once` on a character. */
  function SplitOnce(s: string, c: char): (r: Option<(string, string)>)
    ensures r.None? <==> c !in s
    ensures r.Some? ==> s == r.value.0 + [c] + r.value.1 && c !in r.value.0
  {
    if s == "" then None
    else if s[0] == c then Some(("", s[1..]))
    else
      var rest := SplitOnce(s[1..], c);
      if rest.None? then None else Some(([s[0]] + rest.value.0, rest.value.1))
  }

  lemma {:induction false} SplitOnceUnique(a: string, c: char, b: string)
    requires c !in a
    ensures SplitOnce(a + [c] + b, c) == Some((a, b))
    decreases |a|
  {
    var s := a + [c] + b;
    if a == "" {
      assert s[1..] == b;
    } else {
      assert a[0] in a && s[0] == a[0];
      assert s[1..] == a[1..] + [c] + b;
      SplitOnceUnique(a[1..], c, b);
      assert [a[0]] + a[1..] == a;
    }
  }

  /** `rsplit_once` on a character. */
  function RSplitOnce(s: string, c: char): (r: Option<(string, string)>)
    ensures r.None? <==> c !in s
    ensures r.Some? ==> s == r.value.0 + [c] + r.value.1 && c !in r.value.1
    decreases |s|
  {
    if s == "" then None
    else if s[|s| - 1] == c then Some((s[..|s| - 1], ""))
    else
      var rest := RSplitOnce(s[..|s| - 1], c);
      if rest.None? then None else Some((rest.value.0, rest.value.1 + [s[|s| - 1]]))
  }

  lemma {:induction false} RSplitOnceUnique(a: string, c: char, b: string)
    requires c !in b
    ensures RSplitOnce(a + [c] + b, c) == Some((a, b))
    decreases |b|
  {
    var s := a + [c] + b;
    var n := |b| - 1;
    if b == "" {
      assert s[..|s| - 1] == a;
    } else {
      assert b[n] in b && s[|s| - 1] == b[n];
      assert s[..|s| - 1] == a + [c] + b[..n];
      RSplitOnceUnique(a, c, b[..n]);
      assert b[..n] + [b[n]] == b;
    }
  }

  /** `split` on a character: never empty, no part holds the separator. */
  function SplitAll(s: string, c: char): (r: seq<string>)
    ensures r != [] && forall i | 0 <= i < |r| :: c !in r[i]
    decreases |s|
  {
    match SplitOnce(s, c)
    case None => [s]
    case Some(p) => [p.0] + SplitAll(p.1, c)
  }

  function Join(parts: seq<string>, c: char): string
  {
    if parts == [] then "" else if |parts| == 1 then parts[0] else parts[0] + [c] + Join(parts[1..], c)
  }

  lemma {:induction false} JoinSplit(s: string, c: char)
    ensures Join(SplitAll(s, c), c) == s
    decreases |s|
  {
    match SplitOnce(s, c)
    case None =>
    case Some(p) =>
      JoinSplit(p.1, c);
      assert SplitAll(s, c)[1..] == SplitAll(p.1, c);
  }

  lemma {:induction false} SplitJoin(parts: seq<string>, c: char)
    requires parts != [] && forall i | 0 <= i < |parts| :: c !in parts[i]
    ensures SplitAll(Join(parts, c), c) == parts
    decreases |parts|
  {
    if |parts| > 1 {
      SplitOnceUnique(parts[0], c, Join(parts[1..], c));
      SplitJoin(parts[1..], c);
    }
  }

  lemma {:induction false} JoinAvoids(parts: seq<string>, c: char, x: char)
    requires x != c && forall i | 0 <= i < |parts| :: x !in parts[i]
    ensures x !in Join(parts, c)
    decreases |parts|
  {
    if |parts| > 1 {
      JoinAvoids(parts[1..], c, x);
    }
  }

  lemma {:induction false} SplitAvoids(s: string, c: char, x: char)
    requires x !in s
    ensures forall i | 0 <= i < |SplitAll(s, c)| :: x !in SplitAll(s, c)[i]
    decreases |s|
  {
    match SplitOnce(s, c)
    case None =>
    case Some(p) => SplitAvoids(p.1, c, x);
  }

  lemma {:induction false} JoinClean(parts: seq<string>, c: char)
    requires !Forbidden(c) && forall i | 0 <= i < |parts| :: Clean(parts[i])
    ensures Clean(Join(parts, c))
    decreases |parts|
  {
    if |parts| > 1 {
      JoinClean(parts[1..], c);
    }
  }

  lemma {:induction false} SplitClean(s: string, c: char)
    requires Clean(s)
    ensures forall i | 0 <= i < |SplitAll(s, c)| :: Clean(SplitAll(s, c)[i])
    decreases |s|
  {
    match SplitOnce(s, c)
    case None =>
    case Some(p) =>
      assert p.1 == s[|p.0| + 1..] && p.0 == s[..|p.0|];
      SplitClean(p.1, c);
  }

  // ---------------------------------------------------------------- decimal numbers

  predicate IsDigit(c: char) { '0' <= c <= '9' }

  predicate AllDigits(s: string) { forall i | 0 <= i < |s| :: IsDigit(s[i]) }

  function Value(s: string): nat
    requires AllDigits(s)
  {
    if s == "" then 0 else Value(s[..|s| - 1]) * 10 + (s[|s| - 1] as int - '0' as int)
  }

  /** Parsing a `u16`: an optional plus sign, then digits (leading zeros included) up to 65535. */
  function ParseU16(s: string): Option<nat>
  {
    var digits := if s != "" && s[0] == '+' then s[1..] else s;
    if digits == "" || !AllDigits(digits) || Value(digits) > 65535 then None else Some(Value(digits))
  }

  function Decimal(n: nat): (s: string)
    ensures s != "" && AllDigits(s)
  {
    var last := ('0' as int + n % 10) as char;
    if n < 10 then [last] else Decimal(n / 10) + [last]
  }

  lemma {:induction false} DecimalValue(n: nat)
    ensures Value(Decimal(n)) == n
    decreases n
  {
    var s := Decimal(n);
    assert s[|s| - 1] as int - '0' as int == n % 10;
    if n >= 10 {
      assert s[..|s| - 1] == Decimal(n / 10);
      DecimalValue(n / 10);
    } else {
      assert s[..0] == "";
    }
  }

  lemma ParseDecimal(n: nat)
    requires n <= 65535
    ensures ParseU16(Decimal(n)) == Some(n)
  {
    DecimalValue(n);
    assert IsDigit(Decimal(n)[0]);
  }

  // ---------------------------------------------------------------- ordering

  /** Code-point order, which is also the byte order of the UTF-8 encodings. */
  predicate AtMost(a: string, b: string)
  {
    a == "" || (b != "" && (a[0] < b[0] || (a[0] == b[0] && AtMost(a[1..], b[1..]))))
  }

  lemma {:induction false} AtMostTotal(a: string, b: string)
    ensures AtMost(a, b) || AtMost(b, a)
    decreases |a|
  {
    if a != "" && b != "" && a[0] == b[0] {
      AtMostTotal(a[1..], b[1..]);
    }
  }

  lemma {:induction false} AtMostTransitive(a: string, b: string, c: string)
    requires AtMost(a, b) && AtMost(b, c)
    ensures AtMost(a, c)
    decreases |a|
  {
    if a != "" && a[0] == b[0] && b[0] == c[0] {
      AtMostTransitive(a[1..], b[1..], c[1..]);
    }
  }

  lemma {:induction false} AtMostAntisymmetric(a: string, b: string)
    requires AtMost(a, b) && AtMost(b, a)
    ensures a == b
    decreases |a|
  {
    if a != "" {
      AtMostAntisymmetric(a[1..], b[1..]);
      assert a == [a[0]] + a[1..] && b == [b[0]] + b[1..];
    }
  }

  /** The order, written out: a prefix comes first, and otherwise the first difference decides. */
  lemma {:induction false} AtMostExactly(a: string, b: string)
    ensures AtMost(a, b) <==> a <= b || exists i :: DiffersBelow(a, b, i)
    decreases |a|
  {
    if a != "" && b != "" {
      AtMostExactly(a[1..], b[1..]);
      if a[0] == b[0] {
        assert a <= b <==> a[1..] <= b[1..] by {
          assert a == [a[0]] + a[1..] && b == [b[0]] + b[1..];
        }
        if exists i :: DiffersBelow(a[1..], b[1..], i) {
          var i :| DiffersBelow(a[1..], b[1..], i);
          assert DiffersBelow(a, b, i + 1);
        }
        if exists i :: DiffersBelow(a, b, i) {
          var i :| DiffersBelow(a, b, i);
          assert DiffersBelow(a[1..], b[1..], i - 1);
        }
      } else if a[0] < b[0] {
        assert DiffersBelow(a, b, 0);
      }
    }
  }

  /** The texts agree before position `i`, and there the first has the smaller character. */
  predicate DiffersBelow(a: string, b: string, i: int)
  {
    0 <= i < |a| && i < |b| && a[i] < b[i] && forall j | 0 <= j < i :: a[j] == b[j]
  }

  predicate Sorted(s: seq<string>) { forall i, j | 0 <= i < j < |s| :: AtMost(s[i], s[j]) }

  function Insert(x: string, s: seq<string>): seq<string>
  {
    if s == [] || AtMost(x, s[0]) then [x] + s else [s[0]] + Insert(x, s[1..])
  }

  function Sort(s: seq<string>): seq<string> { if s == [] then [] else Insert(s[0], Sort(s[1..])) }

  lemma {:induction false} InsertKeeps(x: string, s: seq<string>)
    ensures multiset(Insert(x, s)) == multiset(s) + multiset{x}
    decreases |s|
  {
    if s != [] && !AtMost(x, s[0]) {
      InsertKeeps(x, s[1..]);
      assert s == [s[0]] + s[1..];
    }
  }

  lemma {:induction false} InsertSorts(x: string, s: seq<string>)
    requires Sorted(s)
    ensures Sorted(Insert(x, s))
    decreases |s|
  {
    if s == [] {
    } else if AtMost(x, s[0]) {
      forall j | 0 <= j < |s| ensures AtMost(x, s[j]) {
        if j > 0 {
          AtMostTransitive(x, s[0], s[j]);
        }
      }
    } else {
      InsertSorts(x, s[1..]);
      AtMostTotal(x, s[0]);
      InsertKeeps(x, s[1..]);
      forall j | 0 <= j < |Insert(x, s[1..])| ensures AtMost(s[0], Insert(x, s[1..])[j]) {
        var y := Insert(x, s[1..])[j];
        assert y in multiset(Insert(x, s[1..]));
        assert y == x || y in s[1..];
      }
    }
  }

  lemma {:induction false} SortCorrect(s: seq<string>)
    ensures Sorted(Sort(s)) && multiset(Sort(s)) == multiset(s)
    decreases |s|
  {
    if s != [] {
      SortCorrect(s[1..]);
      InsertSorts(s[0], Sort(s[1..]));
      InsertKeeps(s[0], Sort(s[1..]));
      assert s == [s[0]] + s[1..];
    }
  }

  /** A sorted sequence is determined by its elements. */
  lemma {:induction false} SortedUnique(a: seq<string>, b: seq<string>)
    requires Sorted(a) && Sorted(b) && multiset(a) == multiset(b)
    ensures a == b
    decreases |a|
  {
    assert |multiset(a)| == |a| && |multiset(b)| == |b|;
    if a != [] {
      assert a[0] in multiset(a) && a[0] in multiset(b);
      var i :| 0 <= i < |b| && b[i] == a[0];
      assert b[0] in multiset(b) && b[0] in multiset(a);
      var j :| 0 <= j < |a| && a[j] == b[0];
      HeadsAgree(a, b, i, j);
      assert a == [a[0]] + a[1..] && b == [b[0]] + b[1..];
      assert multiset(a[1..]) == multiset(a) - multiset{a[0]} && multiset(b[1..]) == multiset(b) - multiset{b[0]};
      SortedUnique(a[1..], b[1..]);
    }
  }

  lemma HeadsAgree(a: seq<string>, b: seq<string>, i: nat, j: nat)
    requires Sorted(a) && Sorted(b) && i < |b| && j < |a| && b[i] == a[0] && a[j] == b[0]
    ensures a[0] == b[0]
  {
    if i > 0 && j > 0 {
      AtMostAntisymmetric(a[0], b[0]);
    }
  }

  lemma SortOrderless(a: seq<string>, b: seq<string>)
    ensures Sort(a) == Sort(b) <==> multiset(a) == multiset(b)
  {
    SortCorrect(a);
    SortCorrect(b);
    if multiset(a) == multiset(b) {
      SortedUnique(Sort(a), Sort(b));
    }
  }
}
