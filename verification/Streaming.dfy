/** Streamed writes (streaming/service.py): a bounded buffer scanned as it grows, one terminal state, and a commit
    whose memories and terminal event share one batch. */
module Streaming {
  import opened Domain
  import opened Ledger

  /* ---------- Text ---------- */

  function Joined(chunks: seq<string>): string {
    if chunks == [] then "" else Joined(chunks[..|chunks| - 1]) + chunks[|chunks| - 1]
  }

  /** s[-n:] for a positive n. */
  function Last(s: string, n: nat): string {
    if |s| <= n then s else s[|s| - n..]
  }

  /** The window scanned when chunk i arrives. */
  function Window(chunks: seq<string>, i: nat, overlap: nat): string
    requires i < |chunks|
  {
    Last(Joined(chunks[..i]), overlap) + chunks[i]
  }

  predicate MatchesAt(w: string, s: string, p: nat) {
    p + |w| <= |s| && s[p..p + |w|] == w
  }

  ghost predicate Inside(w: string, s: string) {
    exists p: nat :: MatchesAt(w, s, p)
  }

  /** The last n characters can be kept up to date from the window alone. */
  lemma TailOfWindow(before: string, chunk: string, n: nat)
    ensures Last(Last(before, n) + chunk, n) == Last(before + chunk, n)
  {
  }

  lemma {:induction false} JoinedSplit(chunks: seq<string>, i: nat)
    requires i <= |chunks|
    ensures Joined(chunks[..i]) <= Joined(chunks)
  {
    if i < |chunks| {
      JoinedSplit(chunks[..|chunks| - 1], i);
      assert chunks[..|chunks| - 1][..i] == chunks[..i];
    } else {
      assert chunks[..i] == chunks;
    }
  }

  /** The chunk that brought the character at position p. */
  lemma {:induction false} ChunkAt(chunks: seq<string>, p: nat) returns (i: nat)
    requires p < |Joined(chunks)|
    ensures i < |chunks| && |Joined(chunks[..i])| <= p < |Joined(chunks[..i + 1])|
    ensures Joined(chunks[..i + 1]) == Joined(chunks[..i]) + chunks[i]
  {
    var last := |chunks| - 1;
    if p < |Joined(chunks[..last])| {
      i := ChunkAt(chunks[..last], p);
      assert chunks[..last][..i] == chunks[..i] && chunks[..last][..i + 1] == chunks[..i + 1];
    } else {
      i := last;
      assert chunks[..last + 1] == chunks;
    }
  }

  lemma WindowFrom(before: string, chunk: string, overlap: nat)
    requires overlap >= 1
    ensures var start := if |before| <= overlap then 0 else |before| - overlap;
      Last(before, overlap) + chunk == (before + chunk)[start..]
  {
  }

  lemma SliceInside(all: string, upTo: string, start: nat, p: nat, n: nat)
    requires upTo <= all && start <= p && p + n <= |upTo|
    ensures Inside(all[p..p + n], upTo[start..])
  {
    var window, piece := upTo[start..], all[p..p + n];
    assert window[p - start..p - start + n] == piece;
    assert MatchesAt(piece, window, p - start);
  }

  /** No short text escapes the scan: whatever the chunk boundaries, every piece of the stream of at most one
      character more than the overlap lies inside a scanned window. */
  lemma EveryShortTextIsScanned(chunks: seq<string>, overlap: nat, p: nat, n: nat)
    requires overlap >= 1 && 1 <= n <= overlap + 1 && p + n <= |Joined(chunks)|
    ensures exists i :: 0 <= i < |chunks| && Inside(Joined(chunks)[p..p + n], Window(chunks, i, overlap))
  {
    hide Joined, Inside, Last;
    var i := ChunkAt(chunks, p + n - 1);
    JoinedSplit(chunks, i + 1);
    var before, upTo := Joined(chunks[..i]), Joined(chunks[..i + 1]);
    var start := if |before| <= overlap then 0 else |before| - overlap;
    WindowFrom(before, chunks[i], overlap);
    SliceInside(Joined(chunks), upTo, start, p, n);
    assert Inside(Joined(chunks)[p..p + n], Window(chunks, i, overlap));
  }

  /* ---------- All or nothing ---------- */

  predicate AllAdmitted(actions: seq<Action>) {
    forall a <- actions :: Admits(a)
  }

  /** A stream that is not wholly accepted blocks the candidates that would have been admitted. */
  function Adjusted(actions: seq<Action>): seq<Action> {
    if AllAdmitted(actions) then actions
    else seq(|actions|, i requires 0 <= i < |actions| => if Admits(actions[i]) then Block else actions[i])
  }

  lemma AllOrNothing(actions: seq<Action>)
    ensures AllAdmitted(actions) ==> Adjusted(actions) == actions
    ensures !AllAdmitted(actions) ==> forall a <- Adjusted(actions) :: !Admits(a)
    ensures |Adjusted(actions)| == |actions|
    ensures forall i :: 0 <= i < |actions| && !Admits(actions[i]) ==> Adjusted(actions)[i] == actions[i]
  {
  }

  /* ---------- The persisted side ---------- */

  datatype StreamState = Open | Blocked | Committing | Committed | Aborted

  datatype Event =
    | Started(streamId: Id)
    | Ended(streamId: Id, terminal: StreamState, bytes: nat, chunkCount: nat)
    | Decided(streamId: Id, action: Action)

  function OutcomeEvents(id: Id, actions: seq<Action>): seq<Event> {
    seq(|actions|, i requires 0 <= i < |actions| => Decided(id, actions[i]))
  }

  /** How many batches end the stream. */
  function Endings(batches: seq<seq<Event>>, id: Id): nat {
    if batches == [] then 0
    else Endings(batches[..|batches| - 1], id) + if Ends(batches[|batches| - 1], id) then 1 else 0
  }

  predicate Ends(batch: seq<Event>, id: Id) {
    exists e :: e in batch && e.Ended? && e.streamId == id
  }

  /** A memory of the stream becomes active or redacted only beside its committed event, and then all of them do. */
  predicate Whole(batch: seq<Event>, id: Id) {
    (exists e :: e in batch && e.Decided? && e.streamId == id && Admits(e.action)) ==>
      && (exists e :: e in batch && e.Ended? && e.streamId == id && e.terminal.Committed?)
      && (forall e <- batch :: e.Decided? && e.streamId == id ==> Admits(e.action))
  }

  /** The store: one append is one batch, all of it or none of it. */
  class Store {
    var batches: seq<seq<Event>>
    var rows: map<Id, StreamState>
    var healthy: bool

    constructor ()
      ensures batches == [] && rows == map[] && healthy
    {
      batches, rows, healthy := [], map[], true;
    }
  }

  /** What happens to the evaluation of a committing stream. */
  datatype Evaluation =
    | FailsBeforeAppend
    | AppendRefused
    | Evaluated(actions: seq<Action>)
    /** The batch commits and something after it raises. */
    | FailsAfterAppend(actions: seq<Action>)

  datatype Reply = Ok | EmptyChunk | Conflict | LimitExceeded | EvaluationRaised | LedgerFailed

  class Stream {
    const id: Id
    const store: Store
    const maxBytes: nat
    const maxChunks: nat
    const overlap: nat
    var state: StreamState
    var chunks: seq<string>
    var bufferBytes: nat
    var tail: string

    /** The buffer is bounded and counted; the tail is the last characters of everything received. */
    ghost predicate BufferSound()
      reads this`chunks, this`bufferBytes, this`tail
    {
      && bufferBytes == Utf8Length(Joined(chunks)) && bufferBytes <= maxBytes && |chunks| <= maxChunks
      && tail == Last(Joined(chunks), overlap)
    }

    /** At most one terminal event, matching the row; none while the stream is open. */
    ghost predicate EndingSound()
      reads this`state, store
    {
      && id in store.rows
      && Endings(store.batches, id) <= 1
      && (Endings(store.batches, id) == 0 <==> store.rows[id].Open?)
      && (store.rows[id].Open? || store.rows[id] == state)
      && (state.Open? || state.Committing? ==> store.rows[id].Open?)
      && (state.Committed? ==> store.rows[id].Committed?)
      && !store.rows[id].Committing?
      && (forall k :: 0 <= k < |store.batches| ==> Whole(store.batches[k], id))
    }

    ghost predicate Valid()
      reads this, store
    {
      BufferSound() && EndingSound() && overlap >= 1
    }

    constructor (id: Id, store: Store, maxBytes: nat, maxChunks: nat, overlap: nat)
      requires overlap >= 1 && id !in store.rows && Endings(store.batches, id) == 0
      requires forall k :: 0 <= k < |store.batches| ==> Whole(store.batches[k], id)
      modifies store
      ensures Valid() && state == Open && chunks == [] && this.id == id && this.store == store
    {
      this.id, this.store, this.maxBytes, this.maxChunks, this.overlap := id, store, maxBytes, maxChunks, overlap;
      state, chunks, bufferBytes, tail := Open, [], 0, "";
      new;
      ghost var before := store.batches;
      store.batches := store.batches + [[Started(id)]];
      store.rows := store.rows[id := Open];
      AppendedBatch(before, [Started(id)], id);
    }

    /** The event and the row of an abort or a block, unless the store refuses. */
    method RecordEnd(refused: bool) returns (ok: bool)
      requires id in store.rows && (state.Aborted? || state.Blocked?)
      modifies store`batches, store`rows
      ensures ok <==> store.healthy && !refused
      ensures if ok then
                store.batches == old(store.batches) + [[Ended(id, state, bufferBytes, |chunks|)]] && store.rows == old(store.rows)[id := state]
              else store.batches == old(store.batches) && store.rows == old(store.rows)
    {
      ok := store.healthy && !refused;
      if ok {
        store.batches := store.batches + [[Ended(id, state, bufferBytes, |chunks|)]];
        store.rows := store.rows[id := state];
      }
    }

    /** The buffer takes the chunk; the window is the old tail and the chunk. */
    method Keep(chunk: string) returns (window: string)
      requires BufferSound() && |chunks| + 1 <= maxChunks && bufferBytes + Utf8Length(chunk) <= maxBytes
      modifies this`chunks, this`bufferBytes, this`tail
      ensures BufferSound() && chunks == old(chunks) + [chunk] && window == Window(chunks, |chunks| - 1, overlap)
    {
      window := tail + chunk;
      JoinedMore(chunks, chunk);
      TailOfWindow(Joined(chunks), chunk, overlap);
      Utf8Concat(Joined(chunks), chunk);
      assert (chunks + [chunk])[..|chunks|] == chunks;
      chunks, bufferBytes, tail := chunks + [chunk], bufferBytes + Utf8Length(chunk), Last(window, overlap);
    }

    /** What ending in memory leaves in the store: one event and the row, or nothing when the store refuses. */
    ghost predicate Recorded(batches: seq<seq<Event>>, rows: map<Id, StreamState>, recorded: bool)
      reads this`state, this`bufferBytes, this`chunks, store
    {
      if recorded then
        store.batches == batches + [[Ended(id, state, bufferBytes, |chunks|)]] && store.rows == rows[id := state]
      else store.batches == batches && store.rows == rows
    }

    /** The stream ends in memory first; the store is told next and may refuse. */
    method End(terminal: StreamState, refused: bool) returns (ok: bool)
      requires Valid() && (state == Open || state == Committing) && (terminal.Aborted? || terminal.Blocked?)
      modifies this`state, store`batches, store`rows
      ensures Valid() && state == terminal
      ensures ok <==> store.healthy && !refused
      ensures Recorded(old(store.batches), old(store.rows), ok)
    {
      hide BufferSound, Whole, Endings;
      ghost var batches0 := store.batches;
      state := terminal;
      ok := RecordEnd(refused);
      EndedBatch(batches0, id, state, bufferBytes, |chunks|);
    }

    predicate NextChunk(chunk: string, sequence: Option<nat>)
      reads this`state, this`chunks
    {
      state == Open && (sequence.Some? ==> sequence.value == |chunks| + 1)
    }

    predicate Fits(chunk: string)
      reads this`chunks, this`bufferBytes
    {
      |chunks| + 1 <= maxChunks && bufferBytes + Utf8Length(chunk) <= maxBytes
    }

    /** One chunk: the limits, then the scan of the window, then the new tail. */
    method Append(chunk: string, sequence: Option<nat>, risky: string -> bool, refused: bool) returns (r: Reply)
      requires Valid()
      modifies this`state, this`chunks, this`bufferBytes, this`tail, store`batches, store`rows
      ensures Valid()
      ensures chunk == "" ==> r == EmptyChunk && unchanged(this) && unchanged(store)
      ensures chunk != "" && !old(NextChunk(chunk, sequence)) ==> r == Conflict && unchanged(this) && unchanged(store)
      ensures chunk != "" && old(NextChunk(chunk, sequence)) && !old(Fits(chunk)) ==>
                && state == Aborted && chunks == old(chunks)
                && r == (if store.healthy && !refused then LimitExceeded else LedgerFailed)
                && Recorded(old(store.batches), old(store.rows), r == LimitExceeded)
      ensures chunk != "" && old(NextChunk(chunk, sequence)) && old(Fits(chunk)) ==>
                && chunks == old(chunks) + [chunk]
                && (state == Open <==> !risky(Window(chunks, |chunks| - 1, overlap)))
                && (state == Open ==> r == Ok && store.batches == old(store.batches) && store.rows == old(store.rows))
                && (state != Open ==> state == Blocked && r == (if store.healthy && !refused then Ok else LedgerFailed)
                                      && Recorded(old(store.batches), old(store.rows), r == Ok))
    {
      hide BufferSound, EndingSound, Window;
      if chunk == "" {
        return EmptyChunk;
      }
      if state != Open || (sequence.Some? && sequence.value != |chunks| + 1) {
        return Conflict;
      }
      if |chunks| + 1 > maxChunks || bufferBytes + Utf8Length(chunk) > maxBytes {
        var ok := End(Aborted, refused);
        return if ok then LimitExceeded else LedgerFailed;
      }
      assert EndingSound();
      var window := Keep(chunk);
      r := Ok;
      if risky(window) {
        var ok := End(Blocked, refused);
        r := if ok then Ok else LedgerFailed;
      }
    }

    method Abort(refused: bool) returns (r: Reply)
      requires Valid()
      modifies this`state, store`batches, store`rows
      ensures Valid()
      ensures old(state) != Open ==> r == Conflict && unchanged(this) && unchanged(store)
      ensures old(state) == Open ==>
                && state == Aborted && r == (if store.healthy && !refused then Ok else LedgerFailed)
                && Recorded(old(store.batches), old(store.rows), r == Ok)
    {
      hide BufferSound, EndingSound;
      if state != Open {
        return Conflict;
      }
      var ok := End(Aborted, refused);
      r := if ok then Ok else LedgerFailed;
    }

    /** The outcomes and the terminal event in one batch, if the row is still open. */
    method AppendOutcomes(actions: seq<Action>) returns (ok: bool, terminal: StreamState)
      requires id in store.rows
      modifies store`batches, store`rows
      ensures terminal == if AllAdmitted(actions) then Committed else Blocked
      ensures ok <==> old(store.rows)[id].Open?
      ensures if ok then
                var batch := OutcomeEvents(id, Adjusted(actions)) + [Ended(id, terminal, bufferBytes, |chunks|)];
                && store.batches == old(store.batches) + [batch] && store.rows == old(store.rows)[id := terminal]
                && Whole(batch, id) && Endings(store.batches, id) == Endings(old(store.batches), id) + 1
              else store.batches == old(store.batches) && store.rows == old(store.rows)
    {
      terminal := if AllAdmitted(actions) then Committed else Blocked;
      if !store.rows[id].Open? {
        return false, terminal;
      }
      OutcomeBatch(store.batches, id, actions, bufferBytes, |chunks|);
      store.batches := store.batches + [OutcomeEvents(id, Adjusted(actions)) + [Ended(id, terminal, bufferBytes, |chunks|)]];
      store.rows := store.rows[id := terminal];
      ok := true;
    }

    /** The handler of an exception during the evaluation: the stream aborts in memory and, in a healthy store that
        does not refuse, on record; the exception is raised again. */
    method Interrupt(refused: bool) returns (r: Reply)
      requires id in store.rows
      modifies this`state, store`batches, store`rows
      ensures state == Aborted && r == if store.healthy && refused then LedgerFailed else EvaluationRaised
      ensures Recorded(old(store.batches), old(store.rows), store.healthy && !refused)
      ensures store.healthy && !refused ==>
                Whole([Ended(id, Aborted, bufferBytes, |chunks|)], id) && Endings(store.batches, id) == Endings(old(store.batches), id) + 1
    {
      state := Aborted;
      r := EvaluationRaised;
      if store.healthy {
        EndedBatch(store.batches, id, state, bufferBytes, |chunks|);
        var recorded := RecordEnd(refused);
        if !recorded {
          r := LedgerFailed;
        }
      }
    }

    predicate Committable(expected: Option<nat>)
      reads this`state, this`chunks
    {
      state == Open && (expected.Some? ==> expected.value == |chunks|) && Joined(chunks) != ""
    }

    /** The final scan, the evaluation, and the one batch that carries both outcomes and terminal event. */
    method Commit(expected: Option<nat>, risky: string -> bool, evaluation: Evaluation, refused: bool) returns (r: Reply)
      requires Valid()
      modifies this`state, store`batches, store`rows
      ensures BufferSound() && (!evaluation.FailsAfterAppend? ==> Valid())
      ensures !old(Committable(expected)) ==> r == Conflict && unchanged(this) && unchanged(store)
      ensures old(Committable(expected)) && risky(Joined(chunks)) ==>
                && state == Blocked && r == (if store.healthy && !refused then Ok else LedgerFailed)
                && Recorded(old(store.batches), old(store.rows), r == Ok)
      ensures old(Committable(expected)) && !risky(Joined(chunks)) && evaluation.Evaluated? ==>
                && r == Ok && state == (if AllAdmitted(evaluation.actions) then Committed else Blocked)
                && store.batches == old(store.batches) + [CommitBatch(evaluation.actions)] && store.rows == old(store.rows)[id := state]
      ensures old(Committable(expected)) && !risky(Joined(chunks)) && (evaluation.FailsBeforeAppend? || evaluation.AppendRefused?) ==>
                && state == Aborted && r == (if store.healthy && refused then LedgerFailed else EvaluationRaised)
                && Recorded(old(store.batches), old(store.rows), store.healthy && !refused)
      ensures old(Committable(expected)) && !risky(Joined(chunks)) && evaluation.FailsAfterAppend? ==>
                && state == Aborted
                && Endings(store.batches, id) == (if store.healthy && !refused then 2 else 1)
                && id in store.rows
                && store.rows[id] == (if store.healthy && !refused then Aborted
                                      else if AllAdmitted(evaluation.actions) then Committed else Blocked)
    {
      hide Whole, Endings, Joined, OutcomeEvents, Adjusted, AllAdmitted;
      if state != Open || (expected.Some? && expected.value != |chunks|) || Joined(chunks) == "" {
        return Conflict;
      }
      state := Committing;
      if risky(Joined(chunks)) {
        var ok := End(Blocked, refused);
        return if ok then Ok else LedgerFailed;
      }
      if evaluation.Evaluated? || evaluation.FailsAfterAppend? {
        var ok, terminal := AppendOutcomes(evaluation.actions);
        if evaluation.Evaluated? {
          state := terminal;
          return Ok;
        }
      }
      r := Interrupt(refused);
    }

    /** The batch of an evaluated stream: the outcomes, unchanged or all withheld, and the terminal event. */
    function CommitBatch(actions: seq<Action>): seq<Event>
      reads this`bufferBytes, this`chunks
    {
      OutcomeEvents(id, Adjusted(actions)) + [Ended(id, if AllAdmitted(actions) then Committed else Blocked, bufferBytes, |chunks|)]
    }
  }

  lemma JoinedMore(chunks: seq<string>, chunk: string)
    ensures Joined(chunks + [chunk]) == Joined(chunks) + chunk
  {
    assert (chunks + [chunk])[..|chunks|] == chunks;
  }

  lemma AppendedBatch(batches: seq<seq<Event>>, batch: seq<Event>, id: Id)
    ensures Endings(batches + [batch], id) == Endings(batches, id) + if Ends(batch, id) then 1 else 0
  {
    assert (batches + [batch])[..|batches|] == batches;
  }

  lemma EndedBatch(batches: seq<seq<Event>>, id: Id, state: StreamState, bytes: nat, chunkCount: nat)
    ensures Endings(batches + [[Ended(id, state, bytes, chunkCount)]], id) == Endings(batches, id) + 1
    ensures Whole([Ended(id, state, bytes, chunkCount)], id)
  {
    var batch := [Ended(id, state, bytes, chunkCount)];
    assert batch[0] in batch;
    AppendedBatch(batches, batch, id);
  }

  /** The batch of a commit is whole, whichever way the evaluation went. */
  lemma OutcomeBatch(batches: seq<seq<Event>>, id: Id, actions: seq<Action>, bytes: nat, chunkCount: nat)
    ensures var terminal := if AllAdmitted(actions) then Committed else Blocked;
            var batch := OutcomeEvents(id, Adjusted(actions)) + [Ended(id, terminal, bytes, chunkCount)];
            Whole(batch, id) && Endings(batches + [batch], id) == Endings(batches, id) + 1
  {
    var terminal := if AllAdmitted(actions) then Committed else Blocked;
    var batch := OutcomeEvents(id, Adjusted(actions)) + [Ended(id, terminal, bytes, chunkCount)];
    AllOrNothing(actions);
    assert batch[|actions|] == Ended(id, terminal, bytes, chunkCount) && batch[|actions|] in batch;
    forall e | e in batch && e.Decided?
      ensures e.action in Adjusted(actions)
    {
      var k :| 0 <= k < |batch| && batch[k] == e;
      assert e.action == Adjusted(actions)[k];
    }
    AppendedBatch(batches, batch, id);
  }

  /** A batch of other streams neither ends this one nor breaks its wholeness. */
  lemma OtherStreamsApart(batches: seq<seq<Event>>, batch: seq<Event>, id: Id)
    requires forall e <- batch :: e.streamId != id
    ensures Endings(batches + [batch], id) == Endings(batches, id) && Whole(batch, id)
  {
    AppendedBatch(batches, batch, id);
  }
}
