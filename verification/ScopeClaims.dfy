/** The scope claim of a token: every scope printed as a JSON string, joined by spaces; read
    back by splitting at whitespace and parsing the pieces. */
module ScopeClaims {
  import opened Text
  import opened Identifiers
  import opened Scopes

  // ---------------------------------------------------------------- JSON strings

  /** Two-character escapes: what follows the backslash stands for which character. */
  function ShortEscape(e: char): Option<char> {
    if e == '"' || e == '\\' || e == '/' then Some(e)
    else if e == 'b' then Some(8 as char)
    else if e == 'f' then Some(12 as char)
    else if e == 'n' then Some(10 as char)
    else if e == 'r' then Some(13 as char)
    else if e == 't' then Some(9 as char)
    else None
  }

  function EscapedChar(c: char): (s: string)
    ensures s != ""
  {
    var n := c as int;
    if c == '"' || c == '\\' then ['\\', c]
    else if n == 8 then "\\b"
    else if n == 9 then "\\t"
    else if n == 10 then "\\n"
    else if n == 12 then "\\f"
    else if n == 13 then "\\r"
    else if n < 32 then "\\u00" + [HexDigit(n / 16), HexDigit(n % 16)]
    else [c]
  }

  function Escaped(s: string): string {
    if s == "" then "" else EscapedChar(s[0]) + Escaped(s[1..])
  }

  function JsonString(s: string): string {
    "\"" + Escaped(s) + "\""
  }

  predicate IsHexAnyCase(c: char) {
    IsHex(c) || 'A' <= c <= 'F'
  }

  function HexValueAnyCase(c: char): (d: nat)
    requires IsHexAnyCase(c)
    ensures d < 16
  {
    if IsHex(c) then HexValue(c) else c as int - 'A' as int + 10
  }

  /** The character at the start of the inside of a JSON string, and how long it is written. */
  function NextChar(t: string): (r: Option<(char, nat)>)
    ensures r.Some? ==> 0 < r.value.1 <= |t|
  {
    if t == "" || t[0] == '"' || t[0] as int < 32 then None
    else if t[0] != '\\' then Some((t[0], 1))
    else if |t| >= 2 && ShortEscape(t[1]).Some? then Some((ShortEscape(t[1]).value, 2))
    else if |t| >= 6 && t[1] == 'u' && forall i :: 2 <= i < 6 ==> IsHexAnyCase(t[i]) then
      var n := ((HexValueAnyCase(t[2]) * 16 + HexValueAnyCase(t[3])) * 16 + HexValueAnyCase(t[4])) * 16 +
        HexValueAnyCase(t[5]);
      if 0xD800 <= n < 0xE000 then None else Some((n as char, 6))
    else None
  }

  /** The rest of a JSON string after its opening quote. */
  function ReadRest(t: string): Option<string>
    decreases |t|
  {
    if t == "\"" then Some("")
    else match NextChar(t)
      case None => None
      case Some((c, n)) =>
        match ReadRest(t[n..])
        case None => None
        case Some(rest) => Some([c] + rest)
  }

  function ReadJsonString(t: string): Option<string> {
    if t != "" && t[0] == '"' then ReadRest(t[1..]) else None
  }

  lemma EscapedCharReads(c: char, rest: string)
    ensures NextChar(EscapedChar(c) + rest) == Some((c, |EscapedChar(c)|))
    ensures EscapedChar(c) + rest != "\""
  {
    var n := c as int;
    var t := EscapedChar(c) + rest;
    if n < 32 && n != 8 && n != 9 && n != 10 && n != 12 && n != 13 {
      assert t[..6] == EscapedChar(c);
      assert t[2] == '0' && t[3] == '0' && t[4] == HexDigit(n / 16) && t[5] == HexDigit(n % 16);
      assert n / 16 * 16 + n % 16 == n;
      assert forall i :: 2 <= i < 6 ==> IsHexAnyCase(t[i]);
    }
  }

  lemma {:induction false} EscapedReads(s: string)
    ensures ReadRest(Escaped(s) + "\"") == Some(s)
  {
    if s == "" {
      assert Escaped(s) + "\"" == "\"";
    } else {
      var rest := Escaped(s[1..]) + "\"";
      EscapedCharReads(s[0], rest);
      EscapedReads(s[1..]);
      assert Escaped(s) + "\"" == EscapedChar(s[0]) + rest;
      assert (EscapedChar(s[0]) + rest)[|EscapedChar(s[0])|..] == rest;
      assert s == [s[0]] + s[1..];
    }
  }

  lemma JsonStringReads(s: string)
    ensures ReadJsonString(JsonString(s)) == Some(s)
  {
    EscapedReads(s);
    assert JsonString(s)[1..] == Escaped(s) + "\"";
  }

  /** Without its closing quote nothing is read. */
  lemma {:induction false} Unclosed(s: string)
    ensures ReadRest(Escaped(s)) == None
  {
    if s != "" {
      EscapedCharReads(s[0], Escaped(s[1..]));
      assert Escaped(s)[|EscapedChar(s[0])|..] == Escaped(s[1..]);
      Unclosed(s[1..]);
    }
  }

  // ---------------------------------------------------------------- the claim

  /** Whitespace that a JSON string does not escape. */
  predicate IsRawSpace(c: char) {
    IsWhitespace(c) && c as int >= 32
  }

  predicate NoRawSpace(s: string) {
    forall i :: 0 <= i < |s| ==> !IsRawSpace(s[i])
  }

  /** No scope contains whitespace other than control characters. */
  predicate Decodable(scopes: seq<string>) {
    forall i :: 0 <= i < |scopes| ==> NoRawSpace(scopes[i])
  }

  function JsonStrings(scopes: seq<string>): (texts: seq<string>)
    ensures |texts| == |scopes|
  {
    seq(|scopes|, i requires 0 <= i < |scopes| => JsonString(scopes[i]))
  }

  function WriteScopeClaim(scopes: seq<string>): string {
    Join(JsonStrings(scopes), ' ')
  }

  function ReadAll(pieces: seq<string>): Option<seq<string>> {
    if pieces == [] then Some([])
    else match ReadJsonString(pieces[0])
      case None => None
      case Some(scope) =>
        match ReadAll(pieces[1..])
        case None => None
        case Some(rest) => Some([scope] + rest)
  }

  function ReadScopeClaim(text: string): Option<seq<string>> {
    ReadAll(ParseScopes(text))
  }

  predicate NoSpace(s: string) {
    forall i :: 0 <= i < |s| ==> !IsWhitespace(s[i])
  }

  lemma EscapedCharNoSpace(c: char)
    requires !IsRawSpace(c)
    ensures NoSpace(EscapedChar(c))
  {
  }

  lemma {:induction false} EscapedNoSpace(s: string)
    requires NoRawSpace(s)
    ensures NoSpace(Escaped(s))
  {
    if s != "" {
      EscapedCharNoSpace(s[0]);
      EscapedNoSpace(s[1..]);
    }
  }

  lemma {:induction false} EscapedConcat(a: string, b: string)
    ensures Escaped(a + b) == Escaped(a) + Escaped(b)
  {
    if a == "" {
      assert a + b == b;
    } else {
      assert (a + b)[1..] == a[1..] + b;
      EscapedConcat(a[1..], b);
    }
  }

  lemma JsonToken(s: string)
    requires NoRawSpace(s)
    ensures IsToken(JsonString(s))
  {
    EscapedNoSpace(s);
  }

  lemma {:induction false} RawSpacePrinted(a: string, c: char, b: string)
    requires IsRawSpace(c)
    ensures Escaped(a + [c] + b) == Escaped(a) + [c] + Escaped(b)
  {
    EscapedConcat(a + [c], b);
    EscapedConcat(a, [c]);
    assert Escaped([c]) == EscapedChar(c) + Escaped([c][1..]) == [c];
  }

  lemma {:induction false} Regroup(a: string, c: char, b: string, more: string)
    ensures "\"" + (a + [c] + b) + "\"" + more == ("\"" + a) + [c] + (b + "\"" + more)
  {
  }

  lemma {:induction false} UnclosedPiece(a: string, space: char, more: string)
    requires NoRawSpace(a) && IsWhitespace(space)
    ensures ReadScopeClaim(("\"" + Escaped(a)) + [space] + more) == None
  {
    var token := "\"" + Escaped(a);
    EscapedNoSpace(a);
    FirstPiece(token, space, more);
    Unclosed(a);
    assert token[1..] == Escaped(a);
  }

  /** The first raw space cuts the printed scope before its closing quote. */
  lemma {:induction false} CutScope(s: string, more: string)
    requires !NoRawSpace(s)
    ensures ReadScopeClaim(JsonString(s) + more) == None
  {
    var k := FirstRawSpace(s);
    var a, b := s[..k], s[k + 1..];
    Recompose(s, k);
    RawSpacePrinted(a, s[k], b);
    Regroup(Escaped(a), s[k], Escaped(b), more);
    UnclosedPiece(a, s[k], Escaped(b) + "\"" + more);
  }

  lemma FirstRawSpace(s: string) returns (k: nat)
    requires !NoRawSpace(s)
    ensures k < |s| && IsRawSpace(s[k]) && NoRawSpace(s[..k])
  {
    k := 0;
    while !IsRawSpace(s[k])
      invariant k < |s| && NoRawSpace(s[..k]) && exists i :: k <= i < |s| && IsRawSpace(s[i])
      decreases |s| - k
    {
      k := k + 1;
    }
  }

  lemma ClaimCons(scope: string, rest: seq<string>)
    requires rest != []
    ensures WriteScopeClaim([scope] + rest) == JsonString(scope) + " " + WriteScopeClaim(rest)
  {
    assert JsonStrings([scope] + rest) == [JsonString(scope)] + JsonStrings(rest);
    JoinCons(JsonString(scope), JsonStrings(rest), ' ');
  }

  /** A scope claim is read back exactly when no scope contains whitespace that JSON leaves as
      it is; otherwise it cannot be read at all. */
  lemma {:induction false} ScopeClaimRoundTrip(scopes: seq<string>)
    ensures ReadScopeClaim(WriteScopeClaim(scopes)) == if Decodable(scopes) then Some(scopes) else None
  {
    if scopes == [] {
      assert JsonStrings(scopes) == [];
    } else {
      var scope, rest := scopes[0], scopes[1..];
      assert scopes == [scope] + rest;
      DecodableCons(scope, rest);
      if NoRawSpace(scope) {
        FirstScope(scope, rest);
        ScopeClaimRoundTrip(rest);
      } else {
        FirstUnreadable(scope, rest);
      }
    }
  }

  lemma DecodableCons(scope: string, rest: seq<string>)
    ensures Decodable([scope] + rest) <==> NoRawSpace(scope) && Decodable(rest)
  {
    var scopes := [scope] + rest;
    assert scopes[0] == scope && forall i :: 0 <= i < |rest| ==> rest[i] == scopes[i + 1];
  }

  lemma {:induction false} FirstUnreadable(scope: string, rest: seq<string>)
    requires !NoRawSpace(scope)
    ensures ReadScopeClaim(WriteScopeClaim([scope] + rest)) == None
  {
    if rest == [] {
      ClaimOne(scope, rest);
      CutScope(scope, "");
      Append(JsonString(scope), "", "");
    } else {
      ClaimCons(scope, rest);
      CutScope(scope, " " + WriteScopeClaim(rest));
      Append(JsonString(scope), " ", WriteScopeClaim(rest));
    }
  }

  lemma ClaimOne(scope: string, rest: seq<string>)
    requires rest == []
    ensures WriteScopeClaim([scope] + rest) == JsonString(scope)
  {
    assert JsonStrings([scope] + rest) == [JsonString(scope)];
  }

  lemma Append(a: string, b: string, c: string)
    ensures a + b + c == a + (b + c) && a + "" == a
  {
  }

  lemma {:induction false} FirstScope(scope: string, rest: seq<string>)
    requires NoRawSpace(scope)
    ensures ReadScopeClaim(WriteScopeClaim([scope] + rest)) ==
            match ReadScopeClaim(WriteScopeClaim(rest)) case None => None case Some(read) => Some([scope] + read)
  {
    JsonToken(scope);
    JsonStringReads(scope);
    var json := JsonString(scope);
    if rest == [] {
      assert JsonStrings([scope] + rest) == [json];
      OnlyPiece(json);
      assert JsonStrings(rest) == [];
      assert [json][1..] == [];
    } else {
      ClaimCons(scope, rest);
      FirstPiece(json, ' ', WriteScopeClaim(rest));
      var pieces := ParseScopes(WriteScopeClaim(rest));
      assert ([json] + pieces)[1..] == pieces;
    }
  }
}
