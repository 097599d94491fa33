/** The texts that devices sign: the pairing approval and the self-revocation.

    A string is the sequence of its UTF-8 bytes, one char per byte, so that `|s|` is the
    `len()` printed in front of each field. Nothing is assumed about the bytes: names and
    addresses may hold newlines, digits or whole payloads. */
module SignedPayloads {
  import opened Text
  import opened Identifiers

  const PAIRING_HEADER := "idp-device-pairing-approval-v1\n"
  const REVOCATION_HEADER := "idp-device-self-revocation-v1\n"

  datatype Pairing = Pairing(deviceId: Uuid, name: string, publicKey: string, address: string)

  function Field(s: string): string {
    Decimal(|s|) + "\n" + s
  }

  function ThreeFields(name: string, publicKey: string, address: string): string {
    Field(name) + "\n" + (Field(publicKey) + "\n" + Field(address))
  }

  function PairingBody(p: Pairing): string {
    UuidText(p.deviceId) + "\n" + ThreeFields(p.name, p.publicKey, p.address)
  }

  /** `device_pairing_approval_payload`. */
  function PairingPayload(p: Pairing): string {
    PAIRING_HEADER + PairingBody(p)
  }

  /** `device_self_revocation_payload`. */
  function RevocationPayload(publicKey: string): string {
    REVOCATION_HEADER + Field(publicKey)
  }

  // ---------------------------------------------------------------- a reader

  datatype Read = Read(field: string, rest: string)

  /** Reads one length-delimited field; lengths with leading zeros are refused. */
  function ReadField(s: string): Option<Read> {
    var i := IndexOf(s, '\n');
    if i == 0 || i == |s| || !AllDigits(s[..i]) then None
    else
      var n := DecimalValue(s[..i]);
      if Decimal(n) != s[..i] || i + 1 + n > |s| then None
      else Some(Read(s[i + 1..i + 1 + n], s[i + 1 + n..]))
  }

  function Drop(s: string, prefix: string): Option<string> {
    if prefix <= s then Some(s[|prefix|..]) else None
  }

  function ReadFieldThen(s: string, after: string): Option<Read> {
    match ReadField(s)
    case None => None
    case Some(r) =>
      match Drop(r.rest, after)
      case None => None
      case Some(rest) => Some(Read(r.field, rest))
  }

  function ReadThreeFields(s: string): Option<(string, string, string)> {
    match ReadFieldThen(s, "\n")
    case None => None
    case Some(name) =>
      match ReadFieldThen(name.rest, "\n")
      case None => None
      case Some(key) =>
        match ReadField(key.rest)
        case None => None
        case Some(address) =>
          if address.rest == "" then Some((name.field, key.field, address.field)) else None
  }

  function ReadPairingBody(a: string): Option<Pairing> {
    if |a| < 37 || !IsUuidText(a[..36]) || a[36] != '\n' then None else
    match ReadThreeFields(a[37..])
    case None => None
    case Some(f) => Some(Pairing(ParseUuid(a[..36]).value, f.0, f.1, f.2))
  }

  function ReadPairing(s: string): Option<Pairing> {
    match Drop(s, PAIRING_HEADER)
    case None => None
    case Some(a) => ReadPairingBody(a)
  }

  function ReadRevocation(s: string): Option<string> {
    match Drop(s, REVOCATION_HEADER)
    case None => None
    case Some(a) =>
      match ReadField(a)
      case None => None
      case Some(r) => if r.rest == "" then Some(r.field) else None
  }

  // ---------------------------------------------------------------- reading inverts printing

  lemma ReadPrintedField(field: string, rest: string)
    ensures ReadField(Field(field) + rest) == Some(Read(field, rest))
  {
    var s := Field(field) + rest;
    var digits := Decimal(|field|);
    assert s[..|digits|] == digits;
    IndexOfUnique(s, '\n', |digits|);
    DecimalRoundTrip(|field|);
    var i := |digits|;
    assert s[i + 1..i + 1 + |field|] == field;
    assert s[i + 1 + |field|..] == rest;
  }

  lemma PrintReadField(s: string)
    requires ReadField(s).Some?
    ensures Field(ReadField(s).value.field) + ReadField(s).value.rest == s
  {
    var i := IndexOf(s, '\n');
    var n := DecimalValue(s[..i]);
    assert s == s[..i] + [s[i]] + s[i + 1..i + 1 + n] + s[i + 1 + n..];
  }

  lemma ReadPrintedFieldThen(field: string, after: string, rest: string)
    ensures ReadFieldThen(Field(field) + after + rest, after) == Some(Read(field, rest))
  {
    assert Field(field) + after + rest == Field(field) + (after + rest);
    ReadPrintedField(field, after + rest);
    assert (after + rest)[|after|..] == rest;
  }

  lemma PrintReadFieldThen(s: string, after: string)
    requires ReadFieldThen(s, after).Some?
    ensures Field(ReadFieldThen(s, after).value.field) + after + ReadFieldThen(s, after).value.rest == s
  {
    PrintReadField(s);
    var rest := ReadField(s).value.rest;
    assert rest == after + rest[|after|..];
  }

  lemma ReadPrintedThreeFields(name: string, publicKey: string, address: string)
    ensures ReadThreeFields(ThreeFields(name, publicKey, address)) == Some((name, publicKey, address))
  {
    ReadPrintedFieldThen(name, "\n", Field(publicKey) + "\n" + Field(address));
    ReadPrintedFieldThen(publicKey, "\n", Field(address));
    ReadPrintedField(address, "");
    assert Field(address) + "" == Field(address);
  }

  lemma PrintReadThreeFields(s: string)
    requires ReadThreeFields(s).Some?
    ensures var f := ReadThreeFields(s).value; ThreeFields(f.0, f.1, f.2) == s
  {
    PrintReadFieldThen(s, "\n");
    var name := ReadFieldThen(s, "\n").value;
    PrintReadFieldThen(name.rest, "\n");
    var key := ReadFieldThen(name.rest, "\n").value;
    PrintReadField(key.rest);
    var address := ReadField(key.rest).value;
    assert Field(address.field) + "" == Field(address.field);
  }

  lemma BodyRoundTrip(p: Pairing)
    ensures ReadPairingBody(PairingBody(p)) == Some(p)
  {
    var a := PairingBody(p);
    assert a[..36] == UuidText(p.deviceId) && a[36] == '\n';
    assert a[37..] == ThreeFields(p.name, p.publicKey, p.address);
    UuidRoundTrip(p.deviceId);
    ReadPrintedThreeFields(p.name, p.publicKey, p.address);
  }

  lemma BodyReadsExactly(a: string)
    requires ReadPairingBody(a).Some?
    ensures PairingBody(ReadPairingBody(a).value) == a
  {
    ParsedUuidText(a[..36]);
    PrintReadThreeFields(a[37..]);
    Recompose(a, 36);
  }

  lemma DropPrinted(prefix: string, rest: string)
    ensures Drop(prefix + rest, prefix) == Some(rest)
  {
  }

  lemma PrintDropped(s: string, prefix: string)
    requires Drop(s, prefix).Some?
    ensures prefix + Drop(s, prefix).value == s
  {
  }

  /** Every pairing payload reads back to exactly the values printed into it. */
  lemma PairingRoundTrip(p: Pairing)
    ensures ReadPairing(PairingPayload(p)) == Some(p)
  {
    DropPrinted(PAIRING_HEADER, PairingBody(p));
    BodyRoundTrip(p);
  }

  /** What reads as a pairing approval is the payload of what was read, byte for byte. */
  lemma PairingReadsExactly(s: string)
    requires ReadPairing(s).Some?
    ensures PairingPayload(ReadPairing(s).value) == s
  {
    PrintDropped(s, PAIRING_HEADER);
    BodyReadsExactly(Drop(s, PAIRING_HEADER).value);
  }

  lemma RevocationRoundTrip(publicKey: string)
    ensures ReadRevocation(RevocationPayload(publicKey)) == Some(publicKey)
  {
    DropPrinted(REVOCATION_HEADER, Field(publicKey));
    ReadPrintedField(publicKey, "");
    assert Field(publicKey) + "" == Field(publicKey);
  }

  /** A text that starts with one prefix cannot start with one that differs in place k. */
  lemma PrefixesClash(p: string, q: string, x: string, y: string, k: nat)
    requires k < |p| && k < |q| && p[k] != q[k]
    ensures p + x != q + y
  {
    assert (p + x)[k] == p[k] && (q + y)[k] == q[k];
  }

  lemma HeadersDiffer()
    ensures |PAIRING_HEADER| == 31 && |REVOCATION_HEADER| == 30
    ensures PAIRING_HEADER[11] != REVOCATION_HEADER[11]
  {
  }

  /** Two pairing approvals carry the same text only if all four values agree. */
  lemma PairingPayloadInjective(p: Pairing, q: Pairing)
    requires PairingPayload(p) == PairingPayload(q)
    ensures p == q
  {
    PairingRoundTrip(p);
    PairingRoundTrip(q);
  }

  lemma RevocationPayloadInjective(k: string, l: string)
    requires RevocationPayload(k) == RevocationPayload(l)
    ensures k == l
  {
    RevocationRoundTrip(k);
    RevocationRoundTrip(l);
  }

  /** No text is both a pairing approval and a self-revocation. */
  lemma PairingNeverRevocation(p: Pairing, k: string)
    ensures PairingPayload(p) != RevocationPayload(k)
  {
    HeadersDiffer();
    PrefixesClash(PAIRING_HEADER, REVOCATION_HEADER, PairingBody(p), Field(k), 11);
  }
}
