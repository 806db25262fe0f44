/** Strings as the program's formats need them: decimal numbers, splitting, and byte order. */
module Text {

  // ----- decimal

  function Digit(d: nat): char
    requires d < 10
  {
    '0' + d as char
  }

  function Decimal(n: nat): (s: string)
    ensures s != []
    decreases n
  {
    if n < 10 then [Digit(n)] else Decimal(n / 10) + [Digit(n % 10)]
  }

  predicate AllDigits(s: string) {
    forall i | 0 <= i < |s| :: '0' <= s[i] <= '9'
  }

  lemma {:induction false} DecimalDigits(n: nat)
    ensures AllDigits(Decimal(n))
    decreases n
  {
    if n >= 10 {
      DecimalDigits(n / 10);
    }
  }

  lemma {:induction false} DecimalLong(n: nat)
    requires n >= 10
    ensures |Decimal(n)| >= 2
  {
  }

  /** Different numbers are written differently. */
  lemma {:induction false} DecimalInjective(a: nat, b: nat)
    requires Decimal(a) == Decimal(b)
    ensures a == b
    decreases a
  {
    if a < 10 && b < 10 {
      assert Decimal(a)[0] == Decimal(b)[0];
    } else if a < 10 {
      DecimalLong(b);
    } else if b < 10 {
      DecimalLong(a);
    } else {
      var s, t := Decimal(a), Decimal(b);
      assert s[..|s| - 1] == Decimal(a / 10) && t[..|t| - 1] == Decimal(b / 10);
      assert s[|s| - 1] == Digit(a % 10) && t[|t| - 1] == Digit(b % 10);
      DecimalInjective(a / 10, b / 10);
    }
  }

  /** The number a string of digits stands for. */
  function Reading(s: string): int {
    if s == [] then 0 else Reading(s[..|s| - 1]) * 10 + (s[|s| - 1] as int - '0' as int)
  }

  /** A number is written in digits that read back to it, without a leading zero. */
  lemma {:induction false} DecimalReads(n: nat)
    ensures AllDigits(Decimal(n)) && Reading(Decimal(n)) == n
    ensures n == 0 || Decimal(n)[0] != '0'
    decreases n
  {
    DecimalDigits(n);
    var s := Decimal(n);
    if n < 10 {
      assert s[..0] == [] && s[0] as int - '0' as int == n;
    } else {
      DecimalReads(n / 10);
      assert s[..|s| - 1] == Decimal(n / 10) && s[|s| - 1] as int - '0' as int == n % 10;
    }
  }

  /** Digits that stand for a number, as numbers are written. */
  predicate Writes(s: string, n: int) {
    s != [] && AllDigits(s) && Reading(s) == n && (s[0] == '0' ==> |s| == 1)
  }

  lemma {:induction false} ReadingPositive(s: string)
    requires s != [] && AllDigits(s)
    ensures Reading(s) >= 0 && (s[0] != '0' ==> Reading(s) > 0)
    decreases |s|
  {
    var t := s[..|s| - 1];
    if t != [] {
      ReadingPositive(t);
    }
  }

  function LastDigit(s: string): int
    requires s != []
  {
    s[|s| - 1] as int - '0' as int
  }

  lemma OneDigit(s: string, n: nat)
    requires |s| == 1 && Writes(s, n)
    ensures s == Decimal(n)
  {
    assert s[..0] == "";
    assert Reading(s) == Reading("") * 10 + LastDigit(s);
    assert s[0] == Digit(n);
  }

  lemma DropDigit(s: string, n: nat)
    requires |s| > 1 && Writes(s, n)
    ensures var t := s[..|s| - 1];
            Writes(t, Reading(t)) && Reading(t) > 0 && n == Reading(t) * 10 + LastDigit(s)
            && 0 <= LastDigit(s) < 10 && s == t + [Digit(LastDigit(s))]
  {
    ReadingPositive(s[..|s| - 1]);
  }

  /** No number is written in two ways. */
  lemma {:induction false} WrittenOnce(s: string, n: nat)
    requires Writes(s, n)
    ensures s == Decimal(n)
    decreases |s|
  {
    if |s| == 1 {
      OneDigit(s, n);
    } else {
      var t := s[..|s| - 1];
      DropDigit(s, n);
      WrittenOnce(t, Reading(t));
      DecimalSnoc(Reading(t), LastDigit(s));
    }
  }

  lemma DecimalSnoc(m: nat, d: nat)
    requires m > 0 && d < 10
    ensures Decimal(m * 10 + d) == Decimal(m) + [Digit(d)]
  {
    assert (m * 10 + d) / 10 == m && (m * 10 + d) % 10 == d;
  }

  // ----- splitting on one separator

  /** The pieces between separators; there is always at least one. */
  function Split(s: string, sep: char): (parts: seq<string>)
    ensures |parts| >= 1
  {
    if s == [] then [[]]
    else
      var rest := Split(s[1..], sep);
      if s[0] == sep then [[]] + rest else [[s[0]] + rest[0]] + rest[1..]
  }

  lemma {:induction false} SplitPlain(s: string, sep: char)
    requires sep !in s
    ensures Split(s, sep) == [s]
  {
    if s != [] {
      assert sep !in s[1..];
      SplitPlain(s[1..], sep);
      assert [s[0]] + s[1..] == s;
    }
  }

  /** The first piece ends at the first separator. */
  lemma {:induction false} SplitFirst(a: string, sep: char, b: string)
    requires sep !in a
    ensures Split(a + [sep] + b, sep) == [a] + Split(b, sep)
  {
    if a == [] {
      assert a + [sep] + b == [sep] + b;
      assert ([sep] + b)[1..] == b;
    } else {
      var s := a + [sep] + b;
      assert s[1..] == a[1..] + [sep] + b && s[0] == a[0];
      assert sep !in a[1..];
      SplitFirst(a[1..], sep, b);
      assert [a[0]] + a[1..] == a;
    }
  }

  /** Splitting at a separator splits the two sides. */
  lemma {:induction false} SplitAppend(a: string, sep: char, b: string)
    ensures Split(a + [sep] + b, sep) == Split(a, sep) + Split(b, sep)
  {
    var s := a + [sep] + b;
    if a == [] {
      assert s == [sep] + b && s[1..] == b;
    } else {
      assert s[1..] == a[1..] + [sep] + b && s[0] == a[0];
      SplitAppend(a[1..], sep, b);
      SplitStep(a, sep);
      SplitStep(s, sep);
      PrependAppend(a[0], sep, Split(a[1..], sep), Split(b, sep));
    }
  }

  /** The pieces of a string with one more character in front. */
  function Prepend(c: char, sep: char, parts: seq<string>): seq<string>
    requires parts != []
  {
    if c == sep then [[]] + parts else [[c] + parts[0]] + parts[1..]
  }

  lemma SplitStep(s: string, sep: char)
    requires s != []
    ensures Split(s, sep) == Prepend(s[0], sep, Split(s[1..], sep))
  {
  }

  lemma PrependAppend(c: char, sep: char, x: seq<string>, y: seq<string>)
    requires x != []
    ensures Prepend(c, sep, x + y) == Prepend(c, sep, x) + y
  {
    assert (x + y)[1..] == x[1..] + y;
  }

  /** The text a list of pieces was split from. */
  function Unsplit(parts: seq<string>, sep: char): string
    requires parts != []
  {
    if |parts| == 1 then parts[0] else parts[0] + [sep] + Unsplit(parts[1..], sep)
  }

  lemma {:induction false} UnsplitSplit(s: string, sep: char)
    ensures Unsplit(Split(s, sep), sep) == s
  {
    if s != [] {
      UnsplitSplit(s[1..], sep);
      var rest := Split(s[1..], sep);
      if s[0] == sep {
        assert ([[]] + rest)[1..] == rest;
        assert [sep] + s[1..] == s;
      } else {
        var parts := [[s[0]] + rest[0]] + rest[1..];
        if |rest| > 1 {
          assert parts[1..] == rest[1..];
        }
        assert Unsplit(parts, sep) == [s[0]] + Unsplit(rest, sep);
      }
    }
  }

  lemma {:induction false} UnsplitAppend(a: seq<string>, b: seq<string>, sep: char)
    requires a != [] && b != []
    ensures Unsplit(a + b, sep) == Unsplit(a, sep) + [sep] + Unsplit(b, sep)
    decreases |a|
  {
    if |a| == 1 {
      assert (a + b)[1..] == b;
    } else {
      assert (a + b)[1..] == a[1..] + b;
      UnsplitAppend(a[1..], b, sep);
    }
  }

  /** The part of a string before its first separator. */
  predicate Before(p: string, s: string, sep: char) {
    p <= s && sep !in p && (p == s || s[|p|] == sep)
  }

  lemma {:induction false} SplitIsBefore(s: string, sep: char)
    ensures Before(Split(s, sep)[0], s, sep)
    decreases |s|
  {
    if s != [] && s[0] != sep {
      SplitIsBefore(s[1..], sep);
      assert s == [s[0]] + s[1..];
    }
  }

  lemma FirstPiece(p: string, s: string, sep: char)
    ensures p == Split(s, sep)[0] <==> Before(p, s, sep)
  {
    SplitIsBefore(s, sep);
    if Before(p, s, sep) {
      BeforeNotLonger(p, Split(s, sep)[0], s, sep);
      BeforeNotLonger(Split(s, sep)[0], p, s, sep);
    }
  }

  lemma BeforeNotLonger(p: string, q: string, s: string, sep: char)
    requires Before(p, s, sep) && Before(q, s, sep)
    ensures |q| <= |p| && q <= p
  {
    assert forall i | 0 <= i < |q| :: q[i] == s[i] && q[i] != sep;
  }

  // ----- the order of Go's strings

  /** Lexicographic order, which on UTF-8 text is the order of the bytes. */
  predicate Less(a: string, b: string) {
    if b == [] then false
    else if a == [] then true
    else if a[0] != b[0] then a[0] < b[0]
    else Less(a[1..], b[1..])
  }

  /** Alike up to here, where the one ends or has the lesser character. */
  predicate LessAt(a: string, b: string, k: nat) {
    && k <= |a| && k < |b|
    && (forall i | 0 <= i < k :: a[i] == b[i])
    && (k == |a| || a[k] < b[k])
  }

  lemma {:induction false} LessIsLessAt(a: string, b: string)
    ensures Less(a, b) <==> exists k: nat :: LessAt(a, b, k)
    decreases |a|
  {
    if a == [] {
      if b != [] {
        assert LessAt(a, b, 0);
      }
    } else if b != [] && a[0] != b[0] {
      if a[0] < b[0] {
        assert LessAt(a, b, 0);
      }
    } else if b != [] {
      LessIsLessAt(a[1..], b[1..]);
      if k: nat :| LessAt(a[1..], b[1..], k) {
        ShiftLess(a, b, k);
      }
      if k: nat :| LessAt(a, b, k) {
        assert LessAt(a[1..], b[1..], k - 1);
      }
    }
  }

  lemma ShiftLess(a: string, b: string, k: nat)
    requires a != [] && b != [] && a[0] == b[0] && LessAt(a[1..], b[1..], k)
    ensures LessAt(a, b, k + 1)
  {
    forall i | 0 <= i < k + 1 ensures a[i] == b[i] {
      assert i == 0 || a[1..][i - 1] == b[1..][i - 1];
    }
  }

  lemma {:induction false} LessIrreflexive(a: string)
    ensures !Less(a, a)
  {
    if a != [] {
      LessIrreflexive(a[1..]);
    }
  }

  lemma {:induction false} LessTotal(a: string, b: string)
    ensures a == b || Less(a, b) || Less(b, a)
  {
    if a != [] && b != [] && a[0] == b[0] {
      LessTotal(a[1..], b[1..]);
      assert a == [a[0]] + a[1..] && b == [b[0]] + b[1..];
    }
  }

  lemma {:induction false} LessTransitive(a: string, b: string, c: string)
    requires Less(a, b) && Less(b, c)
    ensures Less(a, c)
  {
    if a != [] && a[0] == b[0] && b[0] == c[0] {
      LessTransitive(a[1..], b[1..], c[1..]);
    }
  }

  lemma LessAsymmetric(a: string, b: string)
    requires Less(a, b)
    ensures !Less(b, a) && a != b
  {
    if Less(b, a) {
      LessTransitive(a, b, a);
    }
    LessIrreflexive(a);
  }

  // ----- letter case

  function LowerChar(c: char): (r: char) {
    if 'A' <= c <= 'Z' then c + ('a' - 'A') else c
  }

  function Lower(s: string): (r: string)
    ensures |r| == |s|
  {
    if s == [] then [] else [LowerChar(s[0])] + Lower(s[1..])
  }

  lemma {:induction false} LowerAt(s: string, i: nat)
    requires i < |s|
    ensures Lower(s)[i] == if 'A' <= s[i] <= 'Z' then (s[i] as int + 32) as char else s[i]
    decreases |s|
  {
    if i > 0 {
      LowerAt(s[1..], i - 1);
    }
  }

  // ----- strictly ascending lists

  predicate Ascending(s: seq<string>) {
    forall i, j | 0 <= i < j < |s| :: Less(s[i], s[j])
  }

  /** A strictly ascending list is determined by what is in it. */
  lemma {:induction false} AscendingUnique(s: seq<string>, t: seq<string>)
    requires Ascending(s) && Ascending(t)
    requires forall x :: x in s <==> x in t
    ensures s == t
    decreases |s|
  {
    assert t == [] || t[0] in t;
    if s == [] {
    } else {
      assert s[0] in s && t != [];
      SameHead(s, t);
      TailHolds(s, t);
      TailHolds(t, s);
      AscendingUnique(s[1..], t[1..]);
      assert s == [s[0]] + s[1..] && t == [t[0]] + t[1..];
    }
  }

  lemma SameHead(s: seq<string>, t: seq<string>)
    requires Ascending(s) && Ascending(t) && s != [] && t != [] && s[0] in t && t[0] in s
    ensures s[0] == t[0]
  {
    var i :| 0 <= i < |t| && t[i] == s[0];
    var j :| 0 <= j < |s| && s[j] == t[0];
    if i > 0 && j > 0 {
      LessAsymmetric(t[0], s[0]);
    }
  }

  lemma TailHolds(s: seq<string>, t: seq<string>)
    requires Ascending(s) && Ascending(t) && s != [] && t != [] && s[0] == t[0]
    requires forall x | x in s :: x in t
    ensures forall x | x in s[1..] :: x in t[1..]
    ensures Ascending(s[1..])
  {
    forall x | x in s[1..] ensures x in t[1..] {
      var i :| 0 <= i < |s[1..]| && s[1..][i] == x;
      LessAsymmetric(s[0], s[i + 1]);
      assert x in s && x in t && x != t[0];
      var j :| 0 <= j < |t| && t[j] == x;
      assert t[1..][j - 1] == x;
    }
  }

  /** Putting a string where it belongs, once. */
  function Insert(s: seq<string>, x: string): seq<string> {
    if s == [] then [x]
    else if Less(s[0], x) then [s[0]] + Insert(s[1..], x)
    else if s[0] == x then s
    else [x] + s
  }

  lemma {:induction false} InsertMembers(s: seq<string>, x: string, y: string)
    ensures y in Insert(s, x) <==> y in s || y == x
  {
    if s != [] {
      InsertMembers(s[1..], x, y);
      assert y in s <==> y == s[0] || y in s[1..];
    }
  }

  lemma {:induction false} InsertAscending(s: seq<string>, x: string)
    requires Ascending(s)
    ensures Ascending(Insert(s, x))
  {
    if s == [] {
    } else if Less(s[0], x) {
      assert Ascending(s[1..]);
      InsertAscending(s[1..], x);
      var r := Insert(s[1..], x);
      forall i | 0 <= i < |r| ensures Less(s[0], r[i]) {
        InsertMembers(s[1..], x, r[i]);
        if r[i] in s[1..] {
          var j :| 0 <= j < |s[1..]| && s[1..][j] == r[i];
          assert s[j + 1] == r[i];
        }
      }
    } else if s[0] != x {
      LessTotal(s[0], x);
      var r := [x] + s;
      forall i, j | 0 <= i < j < |r| ensures Less(r[i], r[j]) {
        if i == 0 && j > 1 {
          LessTransitive(x, s[0], s[j - 1]);
        }
      }
    }
  }
}
