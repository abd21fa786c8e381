/**
 The byte strings that receipts are signed and chained over
 (internal/approval/receipt.go, internal/state/receipt_chain.go).

 Every value is written as <decimal length>:<bytes>|, so that no shift of bytes
 between neighbouring fields gives the same string. The theorem at the end is
 the strongest form of that claim: a decoder recovers the kind of the envelope
 and every field from the bytes alone.
 */
module ReceiptEncoding {
  import opened Wrappers

  newtype Byte = x: int | 0 <= x < 256
  type Bytes = seq<Byte>

  const COLON: Byte := 58
  const PIPE: Byte := 124
  const MINUS: Byte := 45

  // --- Decimal numbers ---

  predicate IsDigit(b: Byte) { 48 <= b <= 57 }

  function Digit(d: nat): (b: Byte)
    requires d < 10
    ensures IsDigit(b)
  {
    (48 + d) as Byte
  }

  /** strconv.Itoa on a number that is not negative. */
  function FormatNat(n: nat): (s: Bytes)
    ensures |s| > 0 && forall i :: 0 <= i < |s| ==> IsDigit(s[i])
  {
    if n < 10 then [Digit(n)] else FormatNat(n / 10) + [Digit(n % 10)]
  }

  /** strconv.FormatInt in base 10. */
  function FormatInt(n: int): Bytes {
    if n < 0 then [MINUS] + FormatNat(-n) else FormatNat(n)
  }

  function ParseNat(s: Bytes): (n: nat)
    requires forall i :: 0 <= i < |s| ==> IsDigit(s[i])
  {
    if s == [] then 0 else
      assert IsDigit(s[|s| - 1]);
      10 * ParseNat(s[..|s| - 1]) + (s[|s| - 1] as int - 48)
  }

  function ParseInt(s: Bytes): Option<int> {
    var digits := if s != [] && s[0] == MINUS then s[1..] else s;
    if digits == [] || exists i :: 0 <= i < |digits| && !IsDigit(digits[i]) then None
    else
      var n: int := ParseNat(digits);
      Some(if s[0] == MINUS then -n else n)
  }

  lemma {:induction false} ParseFormatNat(n: nat)
    ensures ParseNat(FormatNat(n)) == n
  {
    if n >= 10 {
      ParseFormatNat(n / 10);
      var s := FormatNat(n);
      assert s[..|s| - 1] == FormatNat(n / 10);
    }
  }

  lemma ParseFormatInt(n: int)
    ensures ParseInt(FormatInt(n)) == Some(n)
  {
    var s := FormatInt(n);
    if n < 0 {
      ParseFormatNat(-n);
      assert s[1..] == FormatNat(-n);
    } else {
      ParseFormatNat(n);
      assert IsDigit(s[0]);
    }
  }

  // --- Length-prefixed parts ---

  function EncodePart(p: Bytes): Bytes {
    FormatNat(|p|) + [COLON] + p + [PIPE]
  }

  function EncodeParts(parts: seq<Bytes>): Bytes {
    if parts == [] then [] else EncodePart(parts[0]) + EncodeParts(parts[1..])
  }

  lemma {:induction false} EncodePartsAppend(parts: seq<Bytes>, p: Bytes)
    ensures EncodeParts(parts + [p]) == EncodeParts(parts) + EncodePart(p)
  {
    if parts == [] {
      assert parts + [p] == [p];
      assert EncodeParts([p]) == EncodePart(p) + EncodeParts([]);
    } else {
      assert (parts + [p])[1..] == parts[1..] + [p];
      EncodePartsAppend(parts[1..], p);
    }
  }

  /** The builder loop that canonical, canonicalV2, canonicalNote and ReceiptChainBytes share. */
  method BuildCanonical(parts: seq<Bytes>) returns (b: Bytes)
    ensures b == EncodeParts(parts)
  {
    b := [];
    for i := 0 to |parts|
      invariant b == EncodeParts(parts[..i])
    {
      EncodePartsAppend(parts[..i], parts[i]);
      assert parts[..i + 1] == parts[..i] + [parts[i]];
      b := b + FormatNat(|parts[i]|);
      b := b + [COLON];
      b := b + parts[i];
      b := b + [PIPE];
    }
    assert parts[..|parts|] == parts;
  }

  /** How many bytes at the front of s are digits. */
  function DigitRun(s: Bytes): (k: nat)
    ensures k <= |s|
    ensures forall i :: 0 <= i < k ==> IsDigit(s[i])
    ensures k < |s| ==> !IsDigit(s[k])
  {
    if s == [] || !IsDigit(s[0]) then 0 else
      var k := DigitRun(s[1..]);
      assert forall i :: 1 <= i < k + 1 ==> s[i] == s[1..][i - 1];
      assert k + 1 < |s| ==> s[k + 1] == s[1..][k];
      k + 1
  }

  /** Splits one part off the front: the part and what follows it. */
  function DecodePart(s: Bytes): (r: Option<(Bytes, Bytes)>)
    ensures r.Some? ==> |r.value.1| < |s|
  {
    var k := DigitRun(s);
    if k == 0 || k == |s| || s[k] != COLON then None else
      var end := k + 1 + ParseNat(s[..k]);
      if end >= |s| || s[end] != PIPE then None else Some((s[k + 1..end], s[end + 1..]))
  }

  function DecodeParts(s: Bytes): Option<seq<Bytes>>
    decreases |s|
  {
    if s == [] then Some([]) else
      match DecodePart(s)
      case None => None
      case Some((part, after)) =>
        match DecodeParts(after)
        case None => None
        case Some(rest) => Some([part] + rest)
  }

  lemma {:induction false} DigitRunOfPrefix(digits: Bytes, rest: Bytes)
    requires forall i :: 0 <= i < |digits| ==> IsDigit(digits[i])
    requires rest != [] && !IsDigit(rest[0])
    ensures DigitRun(digits + rest) == |digits|
  {
    var s := digits + rest;
    assert s[|digits|] == rest[0];
    assert forall i :: 0 <= i < |digits| ==> s[i] == digits[i];
  }

  lemma DecodeEncodePart(p: Bytes, tail: Bytes)
    ensures DecodePart(EncodePart(p) + tail) == Some((p, tail))
  {
    var len := FormatNat(|p|);
    var after := [COLON] + p + [PIPE] + tail;
    var s := EncodePart(p) + tail;
    assert s == len + after;
    DigitRunOfPrefix(len, after);
    ParseFormatNat(|p|);
    assert s[..|len|] == len;
    var end := |len| + 1 + |p|;
    assert s[|len|] == after[0] && s[end] == after[1 + |p|];
    assert s[|len| + 1..end] == p && s[end + 1..] == tail;
  }

  lemma {:induction false} DecodeEncodeParts(parts: seq<Bytes>)
    ensures DecodeParts(EncodeParts(parts)) == Some(parts)
  {
    if parts != [] {
      DecodeEncodePart(parts[0], EncodeParts(parts[1..]));
      DecodeEncodeParts(parts[1..]);
      assert [parts[0]] + parts[1..] == parts;
    }
  }

  // --- The four kinds of envelope ---

  datatype Fields = Fields(pipeline: Bytes, step: Bytes, decidedAt: int, decision: Bytes,
                           operatorID: int, payloadHash: Bytes, quorumN: int, quorumGot: int)

  datatype FieldsV2 = FieldsV2(receiptID: Bytes, runID: Bytes, actionID: Bytes, pipeline: Bytes, step: Bytes,
                               decidedAt: int, decision: Bytes, operatorID: int, payloadHash: Bytes, policy: Bytes,
                               policyHash: Bytes, bindingHash: Bytes, expiresAt: int, quorumN: int, quorumGot: int)

  datatype NoteFields = NoteFields(receiptID: Bytes, operatorID: int, reason: Bytes, notedAt: int)

  /** One row of action_approvals, every column; expires 0 stands for the zero time. */
  datatype Row = Row(id: int, version: int, receiptID: Bytes, runID: Bytes, actionID: Bytes, pipeline: Bytes,
                     step: Bytes, decidedAt: int, decision: Bytes, operatorID: int, payloadHash: Bytes,
                     quorumN: int, quorumGot: int, nonce: Bytes, signature: Bytes, policy: Bytes,
                     policyHash: Bytes, bindingHash: Bytes, expiresAt: int, lifecycle: Bytes)

  datatype Envelope =
    | V1(v1: Fields, nonce: Bytes)
    | V2(v2: FieldsV2, nonce: Bytes)
    | Note(note: NoteFields, nonce: Bytes)
    | StoredRow(row: Row)

  const TAG_V2: Bytes := [50]                             // "2"
  const TAG_NOTE: Bytes := [110, 111, 116, 101, 47, 49]   // "note/1"
  const TAG_ROW: Bytes := [114, 111, 119, 47, 49]         // "row/1"

  function Parts(e: Envelope): seq<Bytes> {
    match e
    case V1(f, nonce) =>
      [f.pipeline, f.step, FormatInt(f.decidedAt), f.decision, FormatInt(f.operatorID), f.payloadHash,
       FormatInt(f.quorumN), FormatInt(f.quorumGot), nonce]
    case V2(f, nonce) =>
      [TAG_V2, f.receiptID, f.runID, f.actionID, f.pipeline, f.step, FormatInt(f.decidedAt), f.decision,
       FormatInt(f.operatorID), f.payloadHash, f.policy, f.policyHash, f.bindingHash, FormatInt(f.expiresAt),
       FormatInt(f.quorumN), FormatInt(f.quorumGot), nonce]
    case Note(f, nonce) =>
      [TAG_NOTE, f.receiptID, FormatInt(f.operatorID), f.reason, FormatInt(f.notedAt), nonce]
    case StoredRow(r) =>
      [TAG_ROW, FormatInt(r.id), FormatInt(r.version), r.receiptID, r.runID, r.actionID, r.pipeline, r.step,
       FormatInt(r.decidedAt), r.decision, FormatInt(r.operatorID), r.payloadHash, FormatInt(r.quorumN),
       FormatInt(r.quorumGot), r.nonce, r.signature, r.policy, r.policyHash, r.bindingHash,
       FormatInt(r.expiresAt), r.lifecycle]
  }

  /** The bytes that are signed (V1, V2, Note) or hashed into the chain (StoredRow). */
  method Canonical(e: Envelope) returns (b: Bytes)
    ensures b == EncodeParts(Parts(e))
    ensures Decode(b) == Some(e)
  {
    b := BuildCanonical(Parts(e));
    DecodeCanonical(e);
  }

  function Int(s: Bytes): int {
    match ParseInt(s)
    case Some(n) => n
    case None => 0
  }

  lemma IntOfFormat(n: int)
    ensures Int(FormatInt(n)) == n
  {
    ParseFormatInt(n);
  }

  /** Reads an envelope back. The kind is the number of parts; it needs no help from the tag. */
  function Decode(b: Bytes): Option<Envelope> {
    match DecodeParts(b)
    case None => None
    case Some(parts) => FromParts(parts)
  }

  function FromParts(p: seq<Bytes>): Option<Envelope> {
    if |p| == 9 then
      Some(V1(Fields(p[0], p[1], Int(p[2]), p[3], Int(p[4]), p[5], Int(p[6]), Int(p[7])), p[8]))
    else if |p| == 17 then
      Some(V2(FieldsV2(p[1], p[2], p[3], p[4], p[5], Int(p[6]), p[7], Int(p[8]), p[9], p[10], p[11], p[12],
                       Int(p[13]), Int(p[14]), Int(p[15])), p[16]))
    else if |p| == 6 then
      Some(Note(NoteFields(p[1], Int(p[2]), p[3], Int(p[4])), p[5]))
    else if |p| == 21 then
      Some(StoredRow(Row(Int(p[1]), Int(p[2]), p[3], p[4], p[5], p[6], p[7], Int(p[8]), p[9], Int(p[10]), p[11],
                         Int(p[12]), Int(p[13]), p[14], p[15], p[16], p[17], p[18], Int(p[19]), p[20])))
    else None
  }

  lemma FromPartsV1(f: Fields, nonce: Bytes)
    ensures FromParts(Parts(V1(f, nonce))) == Some(V1(f, nonce))
  {
    IntOfFormat(f.decidedAt);
    IntOfFormat(f.operatorID);
    IntOfFormat(f.quorumN);
    IntOfFormat(f.quorumGot);
  }

  lemma FromPartsV2(f: FieldsV2, nonce: Bytes)
    ensures FromParts(Parts(V2(f, nonce))) == Some(V2(f, nonce))
  {
    IntOfFormat(f.decidedAt);
    IntOfFormat(f.operatorID);
    IntOfFormat(f.expiresAt);
    IntOfFormat(f.quorumN);
    IntOfFormat(f.quorumGot);
  }

  lemma FromPartsNote(f: NoteFields, nonce: Bytes)
    ensures FromParts(Parts(Note(f, nonce))) == Some(Note(f, nonce))
  {
    IntOfFormat(f.operatorID);
    IntOfFormat(f.notedAt);
  }

  lemma FromPartsRow(r: Row)
    ensures FromParts(Parts(StoredRow(r))) == Some(StoredRow(r))
  {
    IntOfFormat(r.id);
    IntOfFormat(r.version);
    IntOfFormat(r.decidedAt);
    IntOfFormat(r.operatorID);
    IntOfFormat(r.quorumN);
    IntOfFormat(r.quorumGot);
    IntOfFormat(r.expiresAt);
  }

  /** Kind, fields and nonce come back from the bytes, whatever delimiters or digits the fields hold. */
  lemma DecodeCanonical(e: Envelope)
    ensures Decode(EncodeParts(Parts(e))) == Some(e)
  {
    DecodeEncodeParts(Parts(e));
    assert FromParts(Parts(e)) == Some(e) by {
      match e
      case V1(f, nonce) => FromPartsV1(f, nonce);
      case V2(f, nonce) => FromPartsV2(f, nonce);
      case Note(f, nonce) => FromPartsNote(f, nonce);
      case StoredRow(r) => FromPartsRow(r);
    }
  }

  /** No two envelopes, of one kind or of two, are signed or chained over the same bytes. */
  lemma CanonicalInjective(a: Envelope, b: Envelope)
    requires EncodeParts(Parts(a)) == EncodeParts(Parts(b))
    ensures a == b
  {
    DecodeCanonical(a);
    DecodeCanonical(b);
  }
}
