/** OAuth scope lists: parsing, checking, intersecting, and the canonical consent key. */
module Scopes {
  import opened Text

  function Elements(scopes: seq<string>): set<string> {
    set x | x in scopes
  }

  // ---------------------------------------------------------------- parsing

  /** A scope as `parse_scopes` yields it. */
  predicate IsToken(s: string) {
    s != "" && forall i :: 0 <= i < |s| ==> !IsWhitespace(s[i])
  }

  predicate AllTokens(scopes: seq<string>) {
    forall i :: 0 <= i < |scopes| ==> IsToken(scopes[i])
  }

  /** Length of the whitespace-free text at the start of `s`. */
  function TokenLength(s: string): (n: nat)
    ensures n <= |s| && (forall i :: 0 <= i < n ==> !IsWhitespace(s[i])) && (n < |s| ==> IsWhitespace(s[n]))
  {
    if s == "" || IsWhitespace(s[0]) then 0 else 1 + TokenLength(s[1..])
  }

  /** `parse_scopes`: the pieces between runs of whitespace. */
  function ParseScopes(s: string): seq<string>
    decreases |s|
  {
    if s == "" then []
    else if IsWhitespace(s[0]) then ParseScopes(s[1..])
    else
      var n := TokenLength(s);
      [s[..n]] + ParseScopes(s[n..])
  }

  lemma {:induction false} ParsedScopesAreTokens(s: string)
    ensures AllTokens(ParseScopes(s))
    decreases |s|
  {
    if s != "" && IsWhitespace(s[0]) {
      ParsedScopesAreTokens(s[1..]);
    } else if s != "" {
      ParsedScopesAreTokens(s[TokenLength(s)..]);
    }
  }

  lemma TokenLengthUnique(s: string, n: nat)
    requires n <= |s| && (forall i :: 0 <= i < n ==> !IsWhitespace(s[i])) && (n < |s| ==> IsWhitespace(s[n]))
    ensures TokenLength(s) == n
  {
  }

  /** A token, a whitespace character and more: the token is the first piece. */
  lemma {:induction false} FirstPiece(token: string, space: char, more: string)
    requires IsToken(token) && IsWhitespace(space)
    ensures ParseScopes(token + [space] + more) == [token] + ParseScopes(more)
  {
    var s := token + [space] + more;
    assert forall i :: 0 <= i < |token| ==> s[i] == token[i];
    TokenLengthUnique(s, |token|);
    assert s[..|token|] == token && s[|token|..] == [space] + more;
    assert ([space] + more)[1..] == more;
  }

  lemma {:induction false} OnlyPiece(token: string)
    requires IsToken(token)
    ensures ParseScopes(token) == [token]
  {
    TokenLengthUnique(token, |token|);
    assert token[..|token|] == token && token[|token|..] == "";
  }

  /** Parsing by its equations: whitespace of any kind separates and is otherwise skipped, and
      every token between is a piece. */
  lemma ParsesExactly(token: string, space: char, more: string)
    requires IsToken(token) && IsWhitespace(space)
    ensures ParseScopes("") == [] && ParseScopes(token) == [token]
    ensures ParseScopes([space] + more) == ParseScopes(more)
    ensures ParseScopes(token + [space] + more) == [token] + ParseScopes(more)
  {
    OnlyPiece(token);
    FirstPiece(token, space, more);
    assert ([space] + more)[1..] == more;
  }

  /** Parsing undoes joining: what the service prints into a scope string it reads back. */
  lemma {:induction false} ParseJoined(scopes: seq<string>)
    requires AllTokens(scopes)
    ensures ParseScopes(Join(scopes, ' ')) == scopes
  {
    if |scopes| == 1 {
      var s := scopes[0];
      TokenLengthUnique(s, |s|);
      assert s[..|s|] == s && s[|s|..] == "";
      assert ParseScopes(s) == [s];
    } else if |scopes| > 1 {
      var head, rest := scopes[0], Join(scopes[1..], ' ');
      var s := head + " " + rest;
      assert forall i :: 0 <= i < |head| ==> s[i] == head[i];
      TokenLengthUnique(s, |head|);
      assert s[..|head|] == head && s[|head|..] == " " + rest;
      assert (" " + rest)[1..] == rest;
      assert ParseScopes(" " + rest) == ParseScopes(rest);
      ParseJoined(scopes[1..]);
      assert scopes == [head] + scopes[1..];
    }
  }

  // ---------------------------------------------------------------- checking and intersecting

  function Filter(scopes: seq<string>, allowed: seq<string>): (r: seq<string>)
    ensures Elements(r) == Elements(scopes) * Elements(allowed)
    ensures |r| <= |scopes| && (|r| == |scopes| <==> Elements(scopes) <= Elements(allowed))
    ensures |r| == |scopes| ==> r == scopes
  {
    if scopes == [] then []
    else
      var rest := Filter(scopes[1..], allowed);
      assert Elements(scopes) == {scopes[0]} + Elements(scopes[1..]);
      if scopes[0] in allowed then
        assert Elements([scopes[0]] + rest) == {scopes[0]} + Elements(rest);
        [scopes[0]] + rest
      else rest
  }

  /** `validate_scopes`: whether the requested scopes are all allowed. */
  predicate ScopesAllowed(requested: seq<string>, allowed: seq<string>) {
    requested == [] || (allowed != [] && Filter(requested, allowed) == requested)
  }

  /** `intersect_scopes`: no request at all means everything allowed. */
  function IntersectScopes(requested: seq<string>, allowed: seq<string>): (r: seq<string>)
    ensures Elements(r) <= Elements(allowed)
    ensures requested != [] ==> Elements(r) <= Elements(requested)
  {
    if requested == [] then allowed else Filter(requested, allowed)
  }

  lemma AllowedIntersection(requested: seq<string>, allowed: seq<string>)
    requires ScopesAllowed(requested, allowed)
    ensures IntersectScopes(requested, allowed) == if requested == [] then allowed else requested
  {
  }

  // ---------------------------------------------------------------- the consent key

  predicate StrictlySorted(scopes: seq<string>) {
    forall i, j :: 0 <= i < j < |scopes| ==> Less(scopes[i], scopes[j])
  }

  /** Inserts into a strictly sorted list, once. */
  function Insert(x: string, scopes: seq<string>): seq<string> {
    if scopes == [] then [x]
    else if x == scopes[0] then scopes
    else if Less(x, scopes[0]) then [x] + scopes
    else [scopes[0]] + Insert(x, scopes[1..])
  }

  function SortedUnique(scopes: seq<string>): seq<string> {
    if scopes == [] then [] else Insert(scopes[0], SortedUnique(scopes[1..]))
  }

  /** The consent key of a scope list: sorted, without repetition, joined by spaces. */
  function NormalizeScopes(scopes: seq<string>): string {
    Join(SortedUnique(scopes), ' ')
  }

  lemma {:induction false} InsertElements(x: string, scopes: seq<string>)
    ensures Elements(Insert(x, scopes)) == {x} + Elements(scopes)
  {
    if scopes != [] && x != scopes[0] && !Less(x, scopes[0]) {
      InsertElements(x, scopes[1..]);
      assert Elements(scopes) == {scopes[0]} + Elements(scopes[1..]);
      assert Elements([scopes[0]] + Insert(x, scopes[1..])) == {scopes[0]} + Elements(Insert(x, scopes[1..]));
    }
  }

  lemma {:induction false} InsertSorted(x: string, scopes: seq<string>)
    requires StrictlySorted(scopes)
    ensures StrictlySorted(Insert(x, scopes))
  {
    if scopes != [] && x != scopes[0] {
      var head, tail := scopes[0], scopes[1..];
      LessTotal(x, head);
      if Less(x, head) {
        forall j | 0 <= j < |scopes| ensures Less(x, scopes[j]) {
          if j > 0 { LessTransitive(x, head, scopes[j]); }
        }
      } else {
        InsertSorted(x, tail);
        InsertElements(x, tail);
        forall j | 0 <= j < |Insert(x, tail)| ensures Less(head, Insert(x, tail)[j]) {
          assert Insert(x, tail)[j] in Elements(Insert(x, tail));
        }
      }
    }
  }

  lemma {:induction false} SortedUniqueFacts(scopes: seq<string>)
    ensures StrictlySorted(SortedUnique(scopes)) && Elements(SortedUnique(scopes)) == Elements(scopes)
  {
    if scopes != [] {
      SortedUniqueFacts(scopes[1..]);
      InsertSorted(scopes[0], SortedUnique(scopes[1..]));
      InsertElements(scopes[0], SortedUnique(scopes[1..]));
    }
  }

  lemma SmallestIsFirst(a: seq<string>, b: seq<string>)
    requires a != [] && b != [] && StrictlySorted(a) && StrictlySorted(b) && Elements(a) == Elements(b)
    ensures a[0] == b[0]
  {
    assert a[0] in Elements(a) && b[0] in Elements(b);
    var i :| 0 <= i < |b| && b[i] == a[0];
    var j :| 0 <= j < |a| && a[j] == b[0];
    if i > 0 && j > 0 {
      LessTransitive(a[0], a[j], b[i]);
      LessIrreflexive(a[0]);
    }
  }

  lemma NoElements(a: seq<string>)
    ensures Elements(a) == {} <==> a == []
  {
    if a != [] { assert a[0] in Elements(a); }
  }

  lemma MoreElements(a: seq<string>, x: string)
    ensures Elements(a + [x]) == Elements(a) + {x}
  {
  }

  /** A set of strings has one strictly sorted list. */
  lemma {:induction false} StrictlySortedUnique(a: seq<string>, b: seq<string>)
    requires StrictlySorted(a) && StrictlySorted(b) && Elements(a) == Elements(b)
    ensures a == b
  {
    NoElements(a);
    NoElements(b);
    if a != [] {
      SmallestIsFirst(a, b);
      TailElements(a);
      TailElements(b);
      StrictlySortedUnique(a[1..], b[1..]);
      assert a == [a[0]] + a[1..] && b == [b[0]] + b[1..];
    }
  }

  lemma TailElements(a: seq<string>)
    requires a != [] && StrictlySorted(a)
    ensures Elements(a[1..]) == Elements(a) - {a[0]}
  {
    forall x | x in a[1..] ensures x != a[0] {
      var i :| 0 <= i < |a[1..]| && a[1..][i] == x;
      assert Less(a[0], a[i + 1]);
      LessIrreflexive(a[0]);
    }
  }

  /** Non-empty scopes without spaces: what a token is, whitespace other than spaces aside. */
  predicate Clean(scopes: seq<string>) {
    forall i :: 0 <= i < |scopes| ==> scopes[i] != "" && Free(scopes[i], ' ')
  }

  lemma CleanBySet(a: seq<string>, b: seq<string>)
    requires Clean(a) && Elements(b) == Elements(a)
    ensures Clean(b)
  {
    forall i | 0 <= i < |b| ensures b[i] != "" && Free(b[i], ' ') {
      assert b[i] in Elements(b);
    }
  }

  lemma JoinInjective(a: seq<string>, b: seq<string>)
    requires Clean(a) && Clean(b) && Join(a, ' ') == Join(b, ' ')
    ensures a == b
  {
    if a != [] && b != [] {
      SplitJoin(a, ' ');
      SplitJoin(b, ' ');
    }
  }

  /** The consent key is canonical: on lists of non-empty scopes without spaces, two lists
      have the same key exactly when they hold the same scopes, in whatever order and
      however often. */
  lemma ConsentKeyCanonical(a: seq<string>, b: seq<string>)
    requires Clean(a) && Clean(b)
    ensures NormalizeScopes(a) == NormalizeScopes(b) <==> Elements(a) == Elements(b)
  {
    SortedUniqueFacts(a);
    SortedUniqueFacts(b);
    CleanBySet(a, SortedUnique(a));
    CleanBySet(b, SortedUnique(b));
    if NormalizeScopes(a) == NormalizeScopes(b) {
      JoinInjective(SortedUnique(a), SortedUnique(b));
    } else if Elements(a) == Elements(b) {
      StrictlySortedUnique(SortedUnique(a), SortedUnique(b));
    }
  }

  /** Scopes with spaces break it: a registration may hold such scopes, and then two
      different scope sets share one key. */
  lemma SpacesShareKeys()
    ensures NormalizeScopes(["a b"]) == NormalizeScopes(["a", "b"]) && Elements(["a b"]) != Elements(["a", "b"])
  {
    assert SortedUnique(["a b"]) == ["a b"];
    assert SortedUnique(["b"]) == ["b"];
    assert Less("a", "b");
    assert ["a", "b"][1..] == ["b"];
    assert SortedUnique(["a", "b"]) == ["a", "b"];
    assert Join(["b"], ' ') == "b";
    assert Join(["a", "b"], ' ') == "a" + [' '] + "b" == "a b";
    assert "a b" in Elements(["a b"]) && "a b" !in Elements(["a", "b"]);
  }

  // ---------------------------------------------------------------- sort, dedup, join

  predicate Sorted(scopes: seq<string>) {
    forall i, j :: 0 <= i < j < |scopes| ==> !Less(scopes[j], scopes[i])
  }

  lemma InsertionKeepsSorted(v: seq<string>, x: string, j: nat)
    requires Sorted(v) && j <= |v|
    requires j > 0 ==> !Less(x, v[j - 1])
    requires forall k :: j <= k < |v| ==> Less(x, v[k])
    ensures Sorted(v[..j] + [x] + v[j..])
  {
    forall k | 0 <= k < j ensures !Less(x, v[k]) {
      if k < j - 1 { NotLessTransitive(x, v[j - 1], v[k]); }
    }
    LessIrreflexive(x);
    forall k | j <= k < |v| ensures !Less(v[k], x) {
      LessExactlyOne(x, v[k]);
    }
  }

  /** `normalize_scopes`: sort, drop adjacent repetitions, join. */
  method Normalize(scopes: seq<string>) returns (key: string)
    ensures key == NormalizeScopes(scopes)
  {
    var sorted := Sort(scopes);
    var unique := Dedup(sorted);
    SortedUniqueFacts(scopes);
    StrictlySortedUnique(unique, SortedUnique(scopes));
    key := JoinAll(unique);
  }

  method Sort(scopes: seq<string>) returns (v: seq<string>)
    ensures Sorted(v) && multiset(v) == multiset(scopes) && Elements(v) == Elements(scopes)
  {
    v := [];
    for i := 0 to |scopes|
      invariant Sorted(v) && multiset(v) == multiset(scopes[..i])
    {
      var x, j := scopes[i], |v|;
      while j > 0 && Less(x, v[j - 1])
        invariant 0 <= j <= |v|
        invariant forall k :: j <= k < |v| ==> Less(x, v[k])
      {
        j := j - 1;
      }
      InsertionKeepsSorted(v, x, j);
      InsertionAdds(v, x, j);
      v := v[..j] + [x] + v[j..];
      assert scopes[..i + 1] == scopes[..i] + [x];
    }
    assert scopes[..|scopes|] == scopes;
    SameElements(v, scopes);
  }

  lemma InsertionAdds(v: seq<string>, x: string, j: nat)
    requires j <= |v|
    ensures multiset(v[..j] + [x] + v[j..]) == multiset(v) + multiset{x}
  {
    assert v == v[..j] + v[j..];
  }

  lemma SameElements(a: seq<string>, b: seq<string>)
    requires multiset(a) == multiset(b)
    ensures Elements(a) == Elements(b)
  {
    assert forall x :: x in a <==> x in multiset(a);
    assert forall x :: x in b <==> x in multiset(b);
  }

  method Dedup(scopes: seq<string>) returns (v: seq<string>)
    requires Sorted(scopes)
    ensures StrictlySorted(v) && Elements(v) == Elements(scopes)
  {
    v := [];
    for i := 0 to |scopes|
      invariant StrictlySorted(v) && Elements(v) == Elements(scopes[..i])
      invariant i > 0 ==> v != [] && v[|v| - 1] == scopes[i - 1]
      invariant i == 0 ==> v == []
    {
      assert scopes[..i + 1] == scopes[..i] + [scopes[i]];
      MoreElements(scopes[..i], scopes[i]);
      if v == [] || v[|v| - 1] != scopes[i] {
        DedupStep(v, scopes, i);
        MoreElements(v, scopes[i]);
        v := v + [scopes[i]];
      } else {
        assert scopes[i] in Elements(v);
      }
    }
    assert scopes[..|scopes|] == scopes;
  }

  lemma DedupStep(v: seq<string>, scopes: seq<string>, i: nat)
    requires i < |scopes| && Sorted(scopes) && StrictlySorted(v)
    requires i > 0 ==> v != [] && v[|v| - 1] == scopes[i - 1]
    requires i == 0 ==> v == []
    requires v != [] ==> v[|v| - 1] != scopes[i]
    ensures StrictlySorted(v + [scopes[i]])
  {
    if v != [] {
      var last := v[|v| - 1];
      LessTotal(last, scopes[i]);
      forall k | 0 <= k < |v| ensures Less(v[k], scopes[i]) {
        if k < |v| - 1 { LessTransitive(v[k], last, scopes[i]); }
      }
    }
  }

  method JoinAll(parts: seq<string>) returns (s: string)
    ensures s == Join(parts, ' ')
  {
    if parts == [] { return ""; }
    var i := |parts| - 1;
    s := parts[i];
    while i > 0
      invariant 0 <= i < |parts| && s == Join(parts[i..], ' ')
    {
      i := i - 1;
      assert parts[i..][1..] == parts[i + 1..];
      s := parts[i] + " " + s;
    }
    assert parts[0..] == parts;
  }
}
