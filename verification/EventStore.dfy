/** Appending a batch and moving the signed head (ledger/store.py): the batch, its projector and the commit are
    one step; the head file is replaced in a later step that a crash can precede. */
module EventStore {
  import opened Domain
  import opened Chain

  /** An event as the caller hands it in. */
  datatype Draft = Draft(eventId: string, content: string, payload: string)

  /** The head file: missing, unreadable, or a signed head. */
  datatype HeadFile = Missing | Unreadable | Present(head: Head)

  /** Where an append stops. */
  datatype Stop = NoStop | CrashBeforeCommit | CrashBeforeHead | HeadWriteFails | HeadSyncFails | CrashAfterHead

  /** The head file was replaced before the stop, if there was one. */
  predicate HeadReplaced(stop: Stop) {
    stop.NoStop? || stop.HeadSyncFails? || stop.CrashAfterHead?
  }

  predicate HeadRefused(stop: Stop) {
    stop.HeadWriteFails? || stop.HeadSyncFails?
  }

  datatype Reply = Appended(events: seq<Sealed>) | Unhealthy | Rejected | HeadNotUpdated | Crashed

  /** The keys and texts the store writes pass the checks the verifier makes. */
  ghost predicate Coherent(c: Crypto, keyId: string, publicKey: string) {
    && c.keyName(publicKey) == keyId
    && (forall h :: c.verifies(publicKey, h, c.sign(keyId, h)))
    && (forall p :: c.parse(c.canonical(p)).Some? && c.canonical(c.parse(c.canonical(p)).value) == c.canonical(p))
  }

  function SealedBody(c: Crypto, d: Draft, sequence: nat, previous: string, keyId: string): Body {
    Body(sequence, d.eventId, d.content, d.payload, c.payloadHash(c.canonical(d.payload)), previous, keyId)
  }

  function Seal(c: Crypto, d: Draft, sequence: nat, previous: string, keyId: string): Sealed {
    var body := SealedBody(c, d, sequence, previous, keyId);
    Sealed(body, c.bodyHash(body), c.sign(keyId, c.bodyHash(body)))
  }

  function RowOf(e: Sealed): Row {
    Row(ColumnsOf(e), Some(e))
  }

  /** The rows after a batch: each event names the hash of the one before it. */
  function Extended(c: Crypto, rows: seq<Row>, drafts: seq<Draft>, keyId: string): (r: seq<Row>)
    ensures |r| == |rows| + |drafts|
  {
    if drafts == [] then rows
    else
      var before := Extended(c, rows, drafts[..|drafts| - 1], keyId);
      before + [RowOf(Seal(c, drafts[|drafts| - 1], |before| + 1, PreviousHash(before, |before|), keyId))]
  }

  function PayloadsAfter(c: Crypto, payloads: map<string, PayloadRow>, drafts: seq<Draft>): map<string, PayloadRow> {
    if drafts == [] then payloads
    else
      var before := PayloadsAfter(c, payloads, drafts[..|drafts| - 1]);
      var text := c.canonical(drafts[|drafts| - 1].payload);
      if c.payloadHash(text) in before then before else before[c.payloadHash(text) := PayloadRow(text, |text|)]
  }

  /** Whether one event's inserts can run: a new event identifier and no payload digest collision. */
  predicate Insertable(c: Crypto, rows: seq<Row>, payloads: map<string, PayloadRow>, d: Draft) {
    && (forall k :: 0 <= k < |rows| ==> rows[k].columns.eventId != d.eventId)
    && (c.payloadHash(c.canonical(d.payload)) in payloads ==>
          payloads[c.payloadHash(c.canonical(d.payload))].bytes == c.canonical(d.payload))
  }

  /** Whether the batch's inserts can run, each after the ones before it. */
  predicate Acceptable(c: Crypto, rows: seq<Row>, payloads: map<string, PayloadRow>, drafts: seq<Draft>, keyId: string) {
    drafts == [] ||
    var init := drafts[..|drafts| - 1];
    && Acceptable(c, rows, payloads, init, keyId)
    && Insertable(c, Extended(c, rows, init, keyId), PayloadsAfter(c, payloads, init), drafts[|drafts| - 1])
  }

  /* ---------- What a batch does to a valid chain ---------- */

  ghost predicate PayloadsSound(c: Crypto, payloads: map<string, PayloadRow>) {
    forall d :: d in payloads ==> payloads[d].byteLength == |payloads[d].bytes| && c.payloadHash(payloads[d].bytes) == d
  }

  lemma {:induction false} PayloadsKept(c: Crypto, payloads: map<string, PayloadRow>, drafts: seq<Draft>)
    requires PayloadsSound(c, payloads)
    ensures PayloadsSound(c, PayloadsAfter(c, payloads, drafts))
    ensures forall d :: d in payloads ==> d in PayloadsAfter(c, payloads, drafts) && PayloadsAfter(c, payloads, drafts)[d] == payloads[d]
  {
    if drafts != [] {
      PayloadsKept(c, payloads, drafts[..|drafts| - 1]);
    }
  }

  /** More payloads and keys leave valid rows valid. */
  lemma RowsStayValid(c: Crypto, rows: seq<Row>, more: seq<Row>, n: nat,
                      payloads: map<string, PayloadRow>, payloads': map<string, PayloadRow>, keys: map<string, string>)
    requires n <= |rows| && rows <= more && ChainValid(c, rows, n, payloads, keys)
    requires forall d :: d in payloads ==> d in payloads' && payloads'[d] == payloads[d]
    ensures ChainValid(c, more, n, payloads', keys)
  {
    forall k | 0 <= k < n
      ensures RowValid(c, more, k, payloads', keys)
    {
      assert RowValid(c, rows, k, payloads, keys);
      assert more[k] == rows[k] && PreviousHash(more, k) == PreviousHash(rows, k);
    }
  }

  lemma SealedValid(c: Crypto, before: seq<Row>, d: Draft, payloads: map<string, PayloadRow>, keys: map<string, string>, keyId: string)
    requires keyId in keys && Coherent(c, keyId, keys[keyId])
    requires c.payloadHash(c.canonical(d.payload)) in payloads
    requires payloads[c.payloadHash(c.canonical(d.payload))] == PayloadRow(c.canonical(d.payload), |c.canonical(d.payload)|)
    ensures var rows := before + [RowOf(Seal(c, d, |before| + 1, PreviousHash(before, |before|), keyId))];
            RowValid(c, rows, |before|, payloads, keys)
  {
    var rows := before + [RowOf(Seal(c, d, |before| + 1, PreviousHash(before, |before|), keyId))];
    assert PreviousHash(rows, |before|) == PreviousHash(before, |before|);
  }

  lemma {:induction false} AcceptablePrefix(c: Crypto, rows: seq<Row>, payloads: map<string, PayloadRow>, drafts: seq<Draft>, n: nat, keyId: string)
    requires Acceptable(c, rows, payloads, drafts, keyId) && n <= |drafts|
    ensures Acceptable(c, rows, payloads, drafts[..n], keyId)
  {
    hide Insertable;
    if n < |drafts| {
      AcceptablePrefix(c, rows, payloads, drafts[..|drafts| - 1], n, keyId);
      assert drafts[..|drafts| - 1][..n] == drafts[..n];
    } else {
      assert drafts[..n] == drafts;
    }
  }

  /** One event: its payload is stored with its own text, and the rows stay a valid chain. */
  lemma OneExtendsChain(c: Crypto, before: seq<Row>, payloads: map<string, PayloadRow>, keys: map<string, string>, d: Draft, keyId: string)
    requires keyId in keys && Coherent(c, keyId, keys[keyId]) && PayloadsSound(c, payloads)
    requires Insertable(c, before, payloads, d) && ChainValid(c, before, |before|, payloads, keys)
    ensures var text := c.canonical(d.payload);
            var payloads' := if c.payloadHash(text) in payloads then payloads else payloads[c.payloadHash(text) := PayloadRow(text, |text|)];
            var rows := before + [RowOf(Seal(c, d, |before| + 1, PreviousHash(before, |before|), keyId))];
            ChainValid(c, rows, |rows|, payloads', keys) && PayloadsSound(c, payloads')
  {
    hide Coherent, RowValid, ChainValid, RowOf, Seal;
    var text := c.canonical(d.payload);
    var payloads' := if c.payloadHash(text) in payloads then payloads else payloads[c.payloadHash(text) := PayloadRow(text, |text|)];
    var rows := before + [RowOf(Seal(c, d, |before| + 1, PreviousHash(before, |before|), keyId))];
    RowsStayValid(c, before, rows, |before|, payloads, payloads', keys);
    SealedValid(c, before, d, payloads', keys, keyId);
    ValidOneMore(c, rows, |before|, payloads', keys);
  }

  lemma ValidOneMore(c: Crypto, rows: seq<Row>, n: nat, payloads: map<string, PayloadRow>, keys: map<string, string>)
    requires n < |rows| && ChainValid(c, rows, n, payloads, keys) && RowValid(c, rows, n, payloads, keys)
    ensures ChainValid(c, rows, n + 1, payloads, keys)
  {
    hide RowValid;
  }

  /** An accepted batch leaves a longer valid chain. */
  lemma {:induction false} BatchExtendsChain(c: Crypto, rows: seq<Row>, payloads: map<string, PayloadRow>, keys: map<string, string>,
                                             drafts: seq<Draft>, keyId: string)
    requires keyId in keys && Coherent(c, keyId, keys[keyId]) && PayloadsSound(c, payloads)
    requires Acceptable(c, rows, payloads, drafts, keyId) && ChainValid(c, rows, |rows|, payloads, keys)
    ensures var rows', payloads' := Extended(c, rows, drafts, keyId), PayloadsAfter(c, payloads, drafts);
            ChainValid(c, rows', |rows'|, payloads', keys) && PayloadsSound(c, payloads')
  {
    hide Coherent, ChainValid, RowValid, Insertable, PayloadsSound, RowOf, Seal;
    if drafts != [] {
      var init := drafts[..|drafts| - 1];
      BatchExtendsChain(c, rows, payloads, keys, init, keyId);
      OneExtendsChain(c, Extended(c, rows, init, keyId), PayloadsAfter(c, payloads, init), keys, drafts[|drafts| - 1], keyId);
    }
  }

  /** The events of the rows from k on. */
  function Tail(rows: seq<Row>, k: nat): seq<Sealed>
    decreases |rows| - k
  {
    if k >= |rows| then []
    else if rows[k].envelope.None? then Tail(rows, k + 1)
    else [rows[k].envelope.value] + Tail(rows, k + 1)
  }

  /* ---------- The store ---------- */

  class Store<T> {
    const crypto: Crypto
    const keyId: string
    const publicKey: string
    var rows: seq<Row>
    var payloads: map<string, PayloadRow>
    var keys: map<string, string>
    /** The projected tables, committed together with the rows. */
    var tables: T
    var head: HeadFile
    var healthy: bool
    var healthError: Option<string>

    /** What is on disk and survives a crash. */
    ghost predicate Sound()
      reads this
    {
      && Coherent(crypto, keyId, publicKey) && keyId in keys && keys[keyId] == publicKey
      && PayloadsSound(crypto, payloads) && ChainValid(crypto, rows, |rows|, payloads, keys)
    }

    /** The head file names the last stored event. */
    predicate HeadCurrent()
      reads this
    {
      head.Present? && head.head == Head(|rows|, PreviousHash(rows, |rows|), keyId)
    }

    constructor (crypto: Crypto, keyId: string, publicKey: string, tables: T)
      requires Coherent(crypto, keyId, publicKey)
      ensures Sound() && rows == [] && this.tables == tables && head == Missing
      ensures this.crypto == crypto && this.keyId == keyId && this.publicKey == publicKey
    {
      this.crypto, this.keyId, this.publicKey := crypto, keyId, publicKey;
      rows, payloads, keys, this.tables := [], map[], map[keyId := publicKey], tables;
      head, healthy, healthError := Missing, true, None;
    }

    method MarkUnhealthy(reason: string)
      modifies this`healthy, this`healthError
      ensures !healthy && healthError == Some(reason)
    {
      healthy, healthError := false, Some(reason);
    }

    /** A process start: health is judged from the disk alone. */
    method Initialize()
      requires Sound()
      modifies this`head, this`healthy, this`healthError
      ensures Sound()
      ensures old(rows) == [] && old(head) == Missing ==> HeadCurrent() && healthy
      ensures !(old(rows) == [] && old(head) == Missing) ==>
                && head == old(head)
                && (healthy <==> HeadCurrent() && (rows != [] ==> rows[|rows| - 1].columns.keyId == keyId))
    {
      healthy, healthError := true, None;
      if rows == [] && head == Missing {
        head := Present(Head(0, GENESIS_HASH, keyId));
      } else if head == Missing {
        MarkUnhealthy("expected_head_missing");
      } else if head == Unreadable || head.head.keyId != keyId {
        MarkUnhealthy("expected_head_invalid");
      } else {
        if rows != [] { LastColumns(crypto, rows, payloads, keys); }
        var observedHash := if rows == [] then GENESIS_HASH else rows[|rows| - 1].columns.eventHash;
        if head.head.sequence != |rows| || head.head.eventHash != observedHash {
          MarkUnhealthy("expected_head_mismatch");
        } else if rows != [] && rows[|rows| - 1].columns.keyId != keyId {
          MarkUnhealthy("signing_key_mismatch");
        }
      }
    }

    /** The insert of one event after the rows already inserted. */
    method InsertEvent(before: seq<Row>, stored: map<string, PayloadRow>, d: Draft, sequence: nat, previous: string)
      returns (ok: bool, e: Sealed, stored': map<string, PayloadRow>)
      requires sequence == |before| + 1 && previous == PreviousHash(before, |before|)
      ensures ok <==> Insertable(crypto, before, stored, d)
      ensures ok ==>
                var text := crypto.canonical(d.payload);
                && e == Seal(crypto, d, |before| + 1, PreviousHash(before, |before|), keyId)
                && stored' == if crypto.payloadHash(text) in stored then stored else stored[crypto.payloadHash(text) := PayloadRow(text, |text|)]
    {
      e, stored' := Seal(crypto, d, sequence, previous, keyId), stored;
      var text := crypto.canonical(d.payload);
      var digest := crypto.payloadHash(text);
      if digest in stored && stored[digest].bytes != text {
        return false, e, stored';
      }
      if digest !in stored {
        stored' := stored[digest := PayloadRow(text, |text|)];
      }
      ok := forall k :: 0 <= k < |before| ==> before[k].columns.eventId != d.eventId;
    }

    /** The inserts of the batch, event by event, in a transaction that is not yet committed. */
    method InsertBatch(drafts: seq<Draft>)
      returns (ok: bool, newRows: seq<Row>, newPayloads: map<string, PayloadRow>)
      requires Sound()
      ensures ok <==> Acceptable(crypto, rows, payloads, drafts, keyId)
      ensures ok ==> newRows == Extended(crypto, rows, drafts, keyId) && newPayloads == PayloadsAfter(crypto, payloads, drafts)
    {
      hide Sound, Seal, RowOf, Extended, PayloadsAfter, Acceptable, Insertable, PreviousHash;
      newRows, newPayloads := rows, payloads;
      NoBatch(crypto, rows, payloads, keyId);
      assert rows != [] ==> rows[|rows| - 1].columns.eventHash == PreviousHash(rows, |rows|) by {
        if rows != [] { LastRow(); }
      }
      var sequence, previous := |rows|, if rows == [] then GENESIS_HASH else rows[|rows| - 1].columns.eventHash;
      for i := 0 to |drafts|
        invariant newRows == Extended(crypto, rows, drafts[..i], keyId) && newPayloads == PayloadsAfter(crypto, payloads, drafts[..i])
        invariant sequence == |newRows| && previous == PreviousHash(newRows, |newRows|)
        invariant Acceptable(crypto, rows, payloads, drafts[..i], keyId)
      {
        BatchNext(crypto, rows, payloads, drafts, i, keyId);
        sequence := sequence + 1;
        var e;
        ok, e, newPayloads := InsertEvent(newRows, newPayloads, drafts[i], sequence, previous);
        if !ok {
          if Acceptable(crypto, rows, payloads, drafts, keyId) { AcceptablePrefix(crypto, rows, payloads, drafts, i + 1, keyId); }
          return;
        }
        RowNames(newRows, e);
        newRows, previous := newRows + [RowOf(e)], e.eventHash;
      }
      assert drafts[..|drafts|] == drafts;
      ok := true;
    }

    /** The whole append. Everything before the commit is one transaction; the head file follows it. */
    method Append(drafts: seq<Draft>, projector: (T, seq<Row>) -> Option<T>, stop: Stop) returns (reply: Reply)
      requires Sound()
      modifies this`rows, this`payloads, this`tables, this`head, this`healthy, this`healthError
      ensures Sound()
      ensures drafts == [] ==> reply == Appended([])
      ensures drafts != [] && !old(healthy) ==> reply == Unhealthy
      ensures drafts != [] && old(healthy) && !Commits(old(rows), old(payloads), old(tables), drafts, projector) ==> reply == Rejected
      ensures drafts == [] || !old(healthy) || !Commits(old(rows), old(payloads), old(tables), drafts, projector) || stop == CrashBeforeCommit ==>
                rows == old(rows) && payloads == old(payloads) && tables == old(tables) && head == old(head)
                && healthy == old(healthy) && healthError == old(healthError)
      ensures reply.Appended? && drafts != [] ==> HeadCurrent() && healthy && reply.events == Tail(rows, |old(rows)|)
      ensures drafts != [] && old(healthy) && Commits(old(rows), old(payloads), old(tables), drafts, projector) && stop != CrashBeforeCommit ==>
                && rows == Extended(crypto, old(rows), drafts, keyId) && payloads == PayloadsAfter(crypto, old(payloads), drafts)
                && Some(tables) == projector(old(tables), rows)
                && (stop == NoStop <==> reply.Appended?)
                && (if HeadReplaced(stop) then HeadCurrent() else head == old(head))
                && (stop != NoStop ==> reply == (if HeadRefused(stop) then HeadNotUpdated else Crashed))
                && healthy == !HeadRefused(stop)
      ensures drafts != [] && old(healthy) && Commits(old(rows), old(payloads), old(tables), drafts, projector) && stop == CrashBeforeCommit ==>
                reply == Crashed
    {
      hide ChainValid, PayloadsSound, Coherent, Extended, PayloadsAfter, Acceptable, PreviousHash;
      if drafts == [] {
        return Appended([]);
      }
      if !healthy {
        return Unhealthy;
      }
      var ok, newRows, newPayloads := InsertBatch(drafts);
      if !ok {
        return Rejected;
      }
      var projected := projector(tables, newRows);
      if projected.None? {
        return Rejected;
      }
      if stop == CrashBeforeCommit {
        return Crashed;
      }
      BatchExtendsChain(crypto, rows, payloads, keys, drafts, keyId);
      ghost var before := |rows|;
      rows, payloads, tables := newRows, newPayloads, projected.value;
      if stop == CrashBeforeHead {
        return Crashed;
      }
      if stop == HeadWriteFails {
        MarkUnhealthy("expected_head_update_failed");
        return HeadNotUpdated;
      }
      LastRow();
      head := Present(Head(|rows|, rows[|rows| - 1].columns.eventHash, keyId));
      if stop == HeadSyncFails {
        MarkUnhealthy("expected_head_update_failed");
        return HeadNotUpdated;
      }
      if stop == CrashAfterHead {
        return Crashed;
      }
      reply := Appended(Tail(rows, |rows| - |drafts|));
    }

    /** A process that appends, stops anywhere, and starts again: a batch is there as a whole or not at all, the chain
        is valid, and the store is healthy exactly when the head names the last stored event. From a current head that
        fails only for a batch that was committed and whose head was not written. */
    method AppendAndRestart(drafts: seq<Draft>, projector: (T, seq<Row>) -> Option<T>, stop: Stop) returns (reply: Reply)
      requires Sound() && healthy && HeadCurrent() && drafts != []
      requires rows != [] ==> rows[|rows| - 1].columns.keyId == keyId
      modifies this`rows, this`payloads, this`tables, this`head, this`healthy, this`healthError
      ensures Sound()
      ensures healthy <==> HeadCurrent()
      ensures var committed := Commits(old(rows), old(payloads), old(tables), drafts, projector) && stop != CrashBeforeCommit;
              && (committed ==> rows == Extended(crypto, old(rows), drafts, keyId) && Some(tables) == projector(old(tables), rows))
              && (!committed ==> rows == old(rows) && payloads == old(payloads) && tables == old(tables))
              && (healthy <==> !committed || HeadReplaced(stop))
    {
      hide ChainValid, PayloadsSound, Coherent, PayloadsAfter, Acceptable;
      ghost var before := rows;
      reply := Append(drafts, projector, stop);
      ExtendedKey(crypto, before, drafts, keyId);
      Initialize();
    }

    /** Whether the batch and its projector both succeed. */
    predicate Commits(rows: seq<Row>, payloads: map<string, PayloadRow>, tables: T, drafts: seq<Draft>, projector: (T, seq<Row>) -> Option<T>)
    {
      Acceptable(crypto, rows, payloads, drafts, keyId) && projector(tables, Extended(crypto, rows, drafts, keyId)).Some?
    }

    lemma LastRow()
      requires Sound() && rows != []
      ensures rows[|rows| - 1].columns.eventHash == PreviousHash(rows, |rows|)
    {
      LastColumns(crypto, rows, payloads, keys);
    }
  }

  /** The last event of a batch is signed with the store's own key. */
  lemma ExtendedKey(c: Crypto, rows: seq<Row>, drafts: seq<Draft>, keyId: string)
    requires drafts != []
    ensures var after := Extended(c, rows, drafts, keyId); after[|after| - 1].columns.keyId == keyId
  {
  }

  lemma NoBatch(c: Crypto, rows: seq<Row>, payloads: map<string, PayloadRow>, keyId: string)
    ensures PreviousHash([], 0) == GENESIS_HASH
    ensures Extended(c, rows, [], keyId) == rows && PayloadsAfter(c, payloads, []) == payloads && Acceptable(c, rows, payloads, [], keyId)
  {
  }

  lemma BatchNext(c: Crypto, rows: seq<Row>, payloads: map<string, PayloadRow>, drafts: seq<Draft>, i: nat, keyId: string)
    requires i < |drafts|
    ensures var before, text := Extended(c, rows, drafts[..i], keyId), c.canonical(drafts[i].payload);
            var stored := PayloadsAfter(c, payloads, drafts[..i]);
            && Extended(c, rows, drafts[..i + 1], keyId)
               == before + [RowOf(Seal(c, drafts[i], |before| + 1, PreviousHash(before, |before|), keyId))]
            && PayloadsAfter(c, payloads, drafts[..i + 1])
               == (if c.payloadHash(text) in stored then stored else stored[c.payloadHash(text) := PayloadRow(text, |text|)])
            && (Acceptable(c, rows, payloads, drafts[..i + 1], keyId) <==>
                Acceptable(c, rows, payloads, drafts[..i], keyId) && Insertable(c, before, stored, drafts[i]))
  {
    hide Insertable, Seal, RowOf, PreviousHash;
    var more := drafts[..i + 1];
    assert more[..|more| - 1] == drafts[..i] && more[|more| - 1] == drafts[i];
  }

  lemma RowNames(before: seq<Row>, e: Sealed)
    ensures PreviousHash(before + [RowOf(e)], |before| + 1) == e.eventHash
  {
  }

  lemma LastColumns(c: Crypto, rows: seq<Row>, payloads: map<string, PayloadRow>, keys: map<string, string>)
    requires rows != [] && ChainValid(c, rows, |rows|, payloads, keys)
    ensures rows[|rows| - 1].columns.eventHash == PreviousHash(rows, |rows|)
  {
    assert RowValid(c, rows, |rows| - 1, payloads, keys);
  }
}
