/** Primitives shared by the models: optional values and results, decimal numbers, splitting
    and joining at a separator, and the lexicographic order of Rust strings. */
module Text {

  datatype Option<+T> = None | Some(value: T)

  datatype Result<+T, +E> = Ok(value: T) | Err(error: E)

  predicate Free(s: string, sep: char) {
    forall i :: 0 <= i < |s| ==> s[i] != sep
  }

  /** `char::is_whitespace`: the Unicode White_Space property. */
  predicate IsWhitespace(c: char) {
    var n := c as int;
    || 0x9 <= n <= 0xD || n == 0x20 || n == 0x85 || n == 0xA0 || n == 0x1680
    || 0x2000 <= n <= 0x200A || n == 0x2028 || n == 0x2029 || n == 0x202F || n == 0x205F || n == 0x3000
  }

  /** `s.trim().is_empty()`. */
  predicate IsBlank(s: string) {
    forall i :: 0 <= i < |s| ==> IsWhitespace(s[i])
  }

  /** A number that is not in the set. */
  lemma Unused(used: set<nat>) returns (n: nat)
    ensures n !in used
  {
    n := 0;
    var rest := used;
    while rest != {}
      invariant rest <= used
      invariant forall j :: j in used ==> j in rest || j < n
      decreases rest
    {
      var j :| j in rest;
      n, rest := if j < n then n else j + 1, rest - {j};
    }
  }

  // ---------------------------------------------------------------- decimal numbers

  predicate IsDigit(c: char) {
    '0' <= c <= '9'
  }

  predicate AllDigits(s: string) {
    forall i :: 0 <= i < |s| ==> IsDigit(s[i])
  }

  function Digit(d: nat): (c: char)
    requires d < 10
    ensures IsDigit(c) && c as int - '0' as int == d
  {
    ('0' as int + d) as char
  }

  /** `format!("{n}")` for an unsigned integer: no sign, no leading zero. */
  function Decimal(n: nat): (s: string)
    ensures |s| > 0 && AllDigits(s)
  {
    if n < 10 then [Digit(n)] else Decimal(n / 10) + [Digit(n % 10)]
  }

  function DecimalValue(s: string): nat
    requires AllDigits(s)
  {
    if s == "" then 0
    else 10 * DecimalValue(s[..|s| - 1]) + (s[|s| - 1] as int - '0' as int)
  }

  lemma {:induction false} DecimalRoundTrip(n: nat)
    ensures DecimalValue(Decimal(n)) == n
  {
    if n >= 10 {
      DecimalRoundTrip(n / 10);
      assert Decimal(n)[..|Decimal(n)| - 1] == Decimal(n / 10);
    }
  }

  lemma DecimalInjective(m: nat, n: nat)
    requires Decimal(m) == Decimal(n)
    ensures m == n
  {
    DecimalRoundTrip(m);
    DecimalRoundTrip(n);
  }

  /** A character of a user subject. */
  predicate IsSubjectChar(c: char) {
    IsDigit(c) || 'a' <= c <= 'z' || 'A' <= c <= 'Z' || c == '-' || c == '_' || c == '.'
  }

  // ---------------------------------------------------------------- splitting and joining

  /** Index of the first `sep` in `s`, or `|s|`. */
  function IndexOf(s: string, sep: char): (i: nat)
    ensures i <= |s| && Free(s[..i], sep)
    ensures i < |s| ==> s[i] == sep
  {
    if s == "" then 0 else if s[0] == sep then 0 else 1 + IndexOf(s[1..], sep)
  }

  lemma {:induction false} IndexOfUnique(s: string, sep: char, i: nat)
    requires i <= |s| && Free(s[..i], sep) && (i < |s| ==> s[i] == sep)
    ensures IndexOf(s, sep) == i
  {
    var k := IndexOf(s, sep);
    assert forall j :: 0 <= j < i ==> s[j] == s[..i][j] && s[j] != sep;
    assert forall j :: 0 <= j < k ==> s[j] == s[..k][j] && s[j] != sep;
  }

  /** A separator-free head and the separator determine where a string is cut. */
  lemma CutUnique(a: string, b: string, x: string, y: string, sep: char)
    requires Free(a, sep) && Free(b, sep)
    requires a + [sep] + x == b + [sep] + y
    ensures a == b && x == y
  {
    var s := a + [sep] + x;
    assert s[..|a|] == a && s[..|b|] == b && s[|a|] == sep && s[|b|] == sep;
    IndexOfUnique(s, sep, |a|);
    IndexOfUnique(s, sep, |b|);
    assert s[|a| + 1..] == x && s[|b| + 1..] == y;
  }

  /** As CutUnique, with the separator-free part at the end. */
  lemma LastCutUnique(a: string, b: string, x: string, y: string, sep: char)
    requires Free(x, sep) && Free(y, sep)
    requires a + [sep] + x == b + [sep] + y
    ensures a == b && x == y
  {
    var s := a + [sep] + x;
    assert s[|a|] == sep && s[|b|] == sep;
    assert forall j :: |a| < j < |s| ==> s[j] == x[j - |a| - 1] && s[j] != sep;
    assert forall j :: |b| < j < |s| ==> s[j] == y[j - |b| - 1] && s[j] != sep;
    assert s[..|a|] == a && s[..|b|] == b;
    assert s[|a| + 1..] == x && s[|b| + 1..] == y;
  }

  /** Index of the last `c` in `s`, or -1. */
  function LastIndexOf(s: string, c: char): (i: int)
    ensures -1 <= i < |s|
  {
    if s == "" then -1 else if s[|s| - 1] == c then |s| - 1 else LastIndexOf(s[..|s| - 1], c)
  }

  lemma {:induction false} LastIndexAfter(head: string, tail: string, c: char)
    requires Free(tail, c)
    ensures LastIndexOf(head + [c] + tail, c) == |head|
  {
    var s := head + [c] + tail;
    if tail != "" {
      assert s[|s| - 1] == tail[|tail| - 1];
      assert s[..|s| - 1] == head + [c] + tail[..|tail| - 1];
      LastIndexAfter(head, tail[..|tail| - 1], c);
    }
  }

  lemma {:induction false} LastIndexNone(s: string, c: char)
    requires Free(s, c)
    ensures LastIndexOf(s, c) == -1
  {
    if s != "" { LastIndexNone(s[..|s| - 1], c); }
  }

  function Join(parts: seq<string>, sep: char): string {
    if |parts| == 0 then ""
    else if |parts| == 1 then parts[0]
    else parts[0] + [sep] + Join(parts[1..], sep)
  }

  /** `str::split`: always at least one part. */
  function Split(s: string, sep: char): (parts: seq<string>)
    ensures |parts| >= 1
    decreases |s|
  {
    var i := IndexOf(s, sep);
    if i == |s| then [s] else [s[..i]] + Split(s[i + 1..], sep)
  }

  predicate AllFree(parts: seq<string>, sep: char) {
    forall i :: 0 <= i < |parts| ==> Free(parts[i], sep)
  }

  lemma FreeCons(head: string, tail: seq<string>, sep: char)
    requires Free(head, sep) && AllFree(tail, sep)
    ensures AllFree([head] + tail, sep)
  {
  }

  lemma {:induction false} SplitFree(s: string, sep: char)
    ensures AllFree(Split(s, sep), sep)
    decreases |s|
  {
    var i := IndexOf(s, sep);
    if i == |s| {
      Whole(s);
      assert Split(s, sep) == [s];
    } else {
      var rest := s[i + 1..];
      SplitFree(rest, sep);
      FreeCons(s[..i], Split(rest, sep), sep);
    }
  }

  lemma Whole<T>(s: seq<T>)
    ensures s[..|s|] == s
  {
  }

  lemma JoinCons(head: string, tail: seq<string>, sep: char)
    requires |tail| >= 1
    ensures Join([head] + tail, sep) == head + [sep] + Join(tail, sep)
  {
    assert ([head] + tail)[1..] == tail;
  }

  lemma Recompose(s: string, i: nat)
    requires i < |s|
    ensures s[..i] + [s[i]] + s[i + 1..] == s
  {
  }

  lemma {:induction false} JoinSplit(s: string, sep: char)
    ensures Join(Split(s, sep), sep) == s
    decreases |s|
  {
    var i := IndexOf(s, sep);
    if i == |s| {
      assert Split(s, sep) == [s];
    } else {
      Recompose(s, i);
      JoinSplit(s[i + 1..], sep);
      JoinCons(s[..i], Split(s[i + 1..], sep), sep);
    }
  }

  lemma {:induction false} SplitJoin(parts: seq<string>, sep: char)
    requires |parts| >= 1 && AllFree(parts, sep)
    ensures Split(Join(parts, sep), sep) == parts
  {
    var s := Join(parts, sep);
    if |parts| == 1 {
      assert s[..|s|] == s;
      IndexOfUnique(s, sep, |s|);
    } else {
      var rest := Join(parts[1..], sep);
      assert s[..|parts[0]|] == parts[0];
      IndexOfUnique(s, sep, |parts[0]|);
      assert s[|parts[0]| + 1..] == rest;
      SplitJoin(parts[1..], sep);
      assert parts == [parts[0]] + parts[1..];
    }
  }

  // ---------------------------------------------------------------- order of strings

  /** `<` on Rust strings: byte order, which is code point order. */
  predicate Less(a: string, b: string) {
    b != "" && (a == "" || a[0] < b[0] || (a[0] == b[0] && Less(a[1..], b[1..])))
  }

  lemma {:induction false} LessIrreflexive(a: string)
    ensures !Less(a, a)
  {
    if a != "" { LessIrreflexive(a[1..]); }
  }

  lemma {:induction false} LessTransitive(a: string, b: string, c: string)
    requires Less(a, b) && Less(b, c)
    ensures Less(a, c)
  {
    if a != "" && a[0] == b[0] == c[0] { LessTransitive(a[1..], b[1..], c[1..]); }
  }

  lemma {:induction false} LessTotal(a: string, b: string)
    ensures a == b || Less(a, b) || Less(b, a)
  {
    if a != "" && b != "" && a[0] == b[0] {
      LessTotal(a[1..], b[1..]);
      assert a == [a[0]] + a[1..] && b == [b[0]] + b[1..];
    }
  }

  /** Distinct strings are ordered one way and not the other. */
  lemma LessExactlyOne(a: string, b: string)
    requires a != b
    ensures Less(a, b) <==> !Less(b, a)
  {
    LessTotal(a, b);
    if Less(a, b) && Less(b, a) {
      LessTransitive(a, b, a);
      LessIrreflexive(a);
    }
  }

  lemma NotLessTransitive(a: string, b: string, c: string)
    requires !Less(a, b) && !Less(b, c)
    ensures !Less(a, c)
  {
    LessTotal(a, b);
    LessTotal(b, c);
    if Less(a, c) {
      if a == b {
      } else if b == c {
      } else {
        LessTransitive(c, b, a);
        LessExactlyOne(a, c);
      }
    }
  }
}
