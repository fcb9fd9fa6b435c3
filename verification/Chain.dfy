/** The hash chain and its verification (ledger/verify.py, _verify_chain), over ideal cryptography. */
module Chain {
  import opened Domain

  /** An event body as it is hashed; content stands for the columns that no check reads. */
  datatype Body = Body(
    sequence: nat, eventId: string, content: string, payload: string, payloadDigest: string,
    previousHash: string, keyId: string)

  datatype Sealed = Sealed(body: Body, eventHash: string, signature: string)

  /** The columns stored beside the envelope text. */
  datatype Columns = Columns(
    sequence: nat, eventId: string, content: string, payloadDigest: string, previousHash: string,
    eventHash: string, signature: string, keyId: string)

  /** A stored row; an envelope that does not parse is None. */
  datatype Row = Row(columns: Columns, envelope: Option<Sealed>)

  datatype PayloadRow = PayloadRow(bytes: string, byteLength: nat)

  datatype Head = Head(sequence: nat, eventHash: string, keyId: string)

  /** Hashing, canonical text and signatures as functions; parse may fail, verifies may refuse. */
  datatype Crypto = Crypto(
    bodyHash: Body -> string, payloadHash: string -> string,
    canonical: string -> string, parse: string -> Option<string>,
    sign: (string, string) -> string, verifies: (string, string, string) -> bool, keyName: string -> string)

  const GENESIS_HASH := "0000000000000000000000000000000000000000000000000000000000000000"

  ghost predicate Injective(c: Crypto) {
    forall a, b :: c.bodyHash(a) == c.bodyHash(b) ==> a == b
  }

  function ColumnsOf(e: Sealed): Columns {
    Columns(e.body.sequence, e.body.eventId, e.body.content, e.body.payloadDigest, e.body.previousHash,
            e.eventHash, e.signature, e.body.keyId)
  }

  /** The first test that a row fails, in the verifier's order. */
  function RowFailure(c: Crypto, row: Row, sequence: nat, previous: string,
                      payloads: map<string, PayloadRow>, keys: map<string, string>): Option<string> {
    if row.columns.sequence != sequence then Some("noncontiguous_sequence")
    else if row.envelope.None? then Some("invalid_event_envelope")
    else
      var e := row.envelope.value;
      if row.columns != ColumnsOf(e) then Some("column_envelope_mismatch")
      else if e.body.previousHash != previous then Some("previous_hash_mismatch")
      else if e.body.payloadDigest !in payloads then Some("missing_payload")
      else
        var p := payloads[e.body.payloadDigest];
        if p.byteLength != |p.bytes| then Some("payload_length_mismatch")
        else if c.parse(p.bytes).None? then Some("invalid_payload")
        else
          var text := c.canonical(c.parse(p.bytes).value);
          if c.payloadHash(text) != e.body.payloadDigest then Some("payload_digest_mismatch")
          else if c.canonical(e.body.payload) != text then Some("payload_envelope_mismatch")
          else if c.bodyHash(e.body) != e.eventHash then Some("event_hash_mismatch")
          else if e.body.keyId !in keys then Some("unknown_signing_key")
          else if c.keyName(keys[e.body.keyId]) != e.body.keyId then Some("key_id_mismatch")
          else if !c.verifies(keys[e.body.keyId], e.eventHash, e.signature) then Some("invalid_signature")
          else None
  }

  /** The hash that row k must name as its predecessor. */
  function PreviousHash(rows: seq<Row>, k: nat): string
    requires k <= |rows|
  {
    if k == 0 || rows[k - 1].envelope.None? then GENESIS_HASH else rows[k - 1].envelope.value.eventHash
  }

  predicate RowValid(c: Crypto, rows: seq<Row>, k: nat, payloads: map<string, PayloadRow>, keys: map<string, string>)
    requires k < |rows|
  {
    RowFailure(c, rows[k], k + 1, PreviousHash(rows, k), payloads, keys).None?
  }

  ghost predicate ChainValid(c: Crypto, rows: seq<Row>, n: nat, payloads: map<string, PayloadRow>, keys: map<string, string>)
    requires n <= |rows|
  {
    forall k :: 0 <= k < n ==> RowValid(c, rows, k, payloads, keys)
  }

  datatype ChainFailure = ChainFailure(kind: string, at: nat)

  /** On failure the returned events are the longest valid prefix, and the failure is the next row's first failed test. */
  method VerifyChain(c: Crypto, rows: seq<Row>, payloads: map<string, PayloadRow>, keys: map<string, string>)
    returns (verified: seq<Sealed>, failure: Option<ChainFailure>)
    ensures |verified| <= |rows| && ChainValid(c, rows, |verified|, payloads, keys)
    ensures forall k :: 0 <= k < |verified| ==> rows[k].envelope == Some(verified[k])
    ensures failure.None? <==> |verified| == |rows|
    ensures failure.Some? ==>
              && failure.value.at == |verified|
              && RowFailure(c, rows[|verified|], |verified| + 1, PreviousHash(rows, |verified|), payloads, keys) == Some(failure.value.kind)
    ensures forall n :: |verified| < n <= |rows| ==> !ChainValid(c, rows, n, payloads, keys)
  {
    verified := [];
    var expectedSequence, previousHash := 1, GENESIS_HASH;
    while |verified| < |rows|
      invariant |verified| <= |rows| && expectedSequence == |verified| + 1
      invariant previousHash == PreviousHash(rows, |verified|)
      invariant ChainValid(c, rows, |verified|, payloads, keys)
      invariant forall k :: 0 <= k < |verified| ==> rows[k].envelope == Some(verified[k])
      decreases |rows| - |verified|
    {
      var row := rows[|verified|];
      var test := RowFailure(c, row, expectedSequence, previousHash, payloads, keys);
      if test.Some? {
        assert !RowValid(c, rows, |verified|, payloads, keys);
        return verified, Some(ChainFailure(test.value, |verified|));
      }
      assert RowValid(c, rows, |verified|, payloads, keys);
      verified := verified + [row.envelope.value];
      previousHash, expectedSequence := row.envelope.value.eventHash, expectedSequence + 1;
    }
    failure := None;
  }

  predicate HeadNames(head: Head, rows: seq<Row>) {
    head.sequence == |rows| && head.eventHash == PreviousHash(rows, |rows|)
  }

  /** The event bodies of a history, in order. */
  function Bodies(rows: seq<Row>): seq<Option<Body>> {
    seq(|rows|, k requires 0 <= k < |rows| => if rows[k].envelope.Some? then Some(rows[k].envelope.value.body) else None)
  }

  /** With an injective body hash, equal hashes at row k force equal bodies at every earlier row. */
  lemma {:induction false} HashFixesPrefix(c: Crypto, a: seq<Row>, b: seq<Row>, n: nat,
                                           aPayloads: map<string, PayloadRow>, bPayloads: map<string, PayloadRow>,
                                           aKeys: map<string, string>, bKeys: map<string, string>)
    requires Injective(c) && n <= |a| && n <= |b|
    requires ChainValid(c, a, n, aPayloads, aKeys) && ChainValid(c, b, n, bPayloads, bKeys)
    requires PreviousHash(a, n) == PreviousHash(b, n)
    ensures forall k :: 0 <= k < n ==> a[k].envelope.Some? && b[k].envelope.Some? && a[k].envelope.value.body == b[k].envelope.value.body
  {
    if n > 0 {
      assert RowValid(c, a, n - 1, aPayloads, aKeys) && RowValid(c, b, n - 1, bPayloads, bKeys);
      var x, y := a[n - 1].envelope.value, b[n - 1].envelope.value;
      assert c.bodyHash(x.body) == c.bodyHash(y.body);
      HashFixesPrefix(c, a, b, n - 1, aPayloads, bPayloads, aKeys, bKeys);
    }
  }

  /** Two histories that pass the chain check and match the same head hold the same bodies in the same order,
      whatever payload and key tables stand beside them. */
  lemma SameHeadSameHistory(c: Crypto, a: seq<Row>, b: seq<Row>, head: Head,
                            aPayloads: map<string, PayloadRow>, bPayloads: map<string, PayloadRow>,
                            aKeys: map<string, string>, bKeys: map<string, string>)
    requires Injective(c) && HeadNames(head, a) && HeadNames(head, b)
    requires ChainValid(c, a, |a|, aPayloads, aKeys) && ChainValid(c, b, |b|, bPayloads, bKeys)
    ensures Bodies(a) == Bodies(b)
  {
    HashFixesPrefix(c, a, b, |a|, aPayloads, bPayloads, aKeys, bKeys);
  }

  /** Any edit, drop, reorder, truncation or extension of a valid history is refused under its head. */
  lemma TamperingRefused(c: Crypto, a: seq<Row>, b: seq<Row>, head: Head,
                         aPayloads: map<string, PayloadRow>, bPayloads: map<string, PayloadRow>,
                         aKeys: map<string, string>, bKeys: map<string, string>)
    requires Injective(c) && HeadNames(head, a) && ChainValid(c, a, |a|, aPayloads, aKeys)
    requires Bodies(a) != Bodies(b)
    ensures !HeadNames(head, b) || !ChainValid(c, b, |b|, bPayloads, bKeys)
  {
    if HeadNames(head, b) && ChainValid(c, b, |b|, bPayloads, bKeys) {
      SameHeadSameHistory(c, a, b, head, aPayloads, bPayloads, aKeys, bKeys);
    }
  }
}
