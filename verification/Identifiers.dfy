/** The identifiers of the system are UUIDs; they appear in file names and in signed
    payloads in their hyphenated lower-case form. */
module Identifiers {
  import opened Text

  /** A UUID as its 32 hexadecimal digits. */
  type Uuid = u: seq<nat> | |u| == 32 && forall i :: 0 <= i < |u| ==> u[i] < 16
    witness seq(32, _ => 0)

  predicate IsNil(u: Uuid) {
    forall i :: 0 <= i < |u| ==> u[i] == 0
  }

  predicate IsHex(c: char) {
    IsDigit(c) || 'a' <= c <= 'f'
  }

  function HexDigit(d: nat): (c: char)
    requires d < 16
    ensures IsHex(c) && HexValue(c) == d
  {
    if d < 10 then Digit(d) else ('a' as int + d - 10) as char
  }

  function HexValue(c: char): (d: nat)
    requires IsHex(c)
    ensures d < 16
  {
    if IsDigit(c) then c as int - '0' as int else c as int - 'a' as int + 10
  }

  predicate IsDashAt(i: nat) {
    i == 8 || i == 13 || i == 18 || i == 23
  }

  /** Position in the 36-character text of the k-th hexadecimal digit. */
  function TextPosition(k: nat): (p: nat)
    requires k < 32
    ensures p < 36 && !IsDashAt(p) && DigitIndex(p) == k
  {
    if k < 8 then k else if k < 12 then k + 1 else if k < 16 then k + 2 else if k < 20 then k + 3 else k + 4
  }

  function DigitIndex(p: nat): (k: nat)
    requires p < 36 && !IsDashAt(p)
    ensures k < 32
  {
    if p < 8 then p else if p < 13 then p - 1 else if p < 18 then p - 2 else if p < 23 then p - 3 else p - 4
  }

  /** `Uuid::to_string`. */
  function UuidText(u: Uuid): (s: string)
    ensures |s| == 36
    ensures forall i :: 0 <= i < 36 ==> s[i] == '-' || IsHex(s[i])
  {
    seq(36, i requires 0 <= i < 36 => if IsDashAt(i) then '-' else HexDigit(u[DigitIndex(i)]))
  }

  predicate IsUuidText(s: string) {
    |s| == 36 && forall i :: 0 <= i < 36 ==> if IsDashAt(i) then s[i] == '-' else IsHex(s[i])
  }

  function ParseUuid(s: string): (u: Option<Uuid>)
    ensures u.Some? <==> IsUuidText(s)
  {
    if IsUuidText(s) then Some(seq(32, k requires 0 <= k < 32 => HexValue(s[TextPosition(k)]))) else None
  }

  lemma UuidRoundTrip(u: Uuid)
    ensures ParseUuid(UuidText(u)) == Some(u)
  {
    var s := UuidText(u);
    forall k | 0 <= k < 32 ensures HexValue(s[TextPosition(k)]) == u[k] {
      assert s[TextPosition(k)] == HexDigit(u[DigitIndex(TextPosition(k))]);
    }
    assert ParseUuid(s).value == u;
  }

  lemma ParsedUuidText(s: string)
    requires IsUuidText(s)
    ensures UuidText(ParseUuid(s).value) == s
  {
    var u := ParseUuid(s).value;
    forall i | 0 <= i < 36 ensures UuidText(u)[i] == s[i] {
      if !IsDashAt(i) {
        assert TextPosition(DigitIndex(i)) == i;
        assert u[DigitIndex(i)] == HexValue(s[i]);
        assert HexDigit(HexValue(s[i])) == s[i];
      }
    }
  }

  lemma UuidTextInjective(u: Uuid, v: Uuid)
    requires UuidText(u) == UuidText(v)
    ensures u == v
  {
    UuidRoundTrip(u);
    UuidRoundTrip(v);
  }
}
