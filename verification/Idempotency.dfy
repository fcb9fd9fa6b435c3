/** At-most-once mutations (daemon/idempotency.py): reserve, act, complete, with a crash possible between any two. */
module Idempotency {
  import opened Domain

  datatype Key = Key(operation: string, key: string)

  /** A response as stored; the duplicate flag is set only on replay. */
  datatype Response = Response(body: string, duplicate: Option<bool>)

  datatype Stored = InProgress | Completed(response: Response)

  datatype Row = Row(requestDigest: string, stored: Stored)

  datatype Reply =
    | Answered(response: Response)
    | Unhealthy
    | KeyInvalid
    | DifferentRequest
    | Indeterminate
    | ReservationChanged
    | ActionFailed
    | Crashed

  /** Where a call stops, and what the action does if it is reached. */
  datatype Course =
    | CrashBeforeReserve
    | CrashAfterReserve
    | Fails
    | FailsAndReleaseFails
    | CrashAfterAction(result: Response)
    | CompletionFails(result: Response)
    | Succeeds(result: Response)

  /** The courses in which the action returns successfully. */
  predicate Acts(c: Course) {
    c.CrashAfterAction? || c.CompletionFails? || c.Succeeds?
  }

  predicate KeyChar(c: char) {
    'A' <= c <= 'Z' || 'a' <= c <= 'z' || '0' <= c <= '9' || c == '.' || c == '_' || c == ':' || c == '-'
  }

  predicate KeyValid(k: string) {
    16 <= |k| <= 128 && forall c <- k :: KeyChar(c)
  }

  /** A replay differs from the stored response in the duplicate flag alone, and only if the response has one. */
  function Replayed(r: Response): Response {
    if r.duplicate.Some? then r.(duplicate := Some(true)) else r
  }

  class IdempotencyStore {
    var rows: map<Key, Row>
    var healthy: bool
    /** History: each time an action returned successfully, with the request it was for and what it returned. */
    ghost var done: seq<(Key, string, Response)>

    /** A completed row is the one success of its key; a key without a row has had none. */
    ghost predicate Valid()
      reads this
    {
      && (forall k :: k !in rows ==> SuccessesOf(done, k) == [])
      && (forall k :: k in rows && rows[k].stored.Completed? ==>
            SuccessesOf(done, k) == [(rows[k].requestDigest, rows[k].stored.response)])
      && (forall k :: k in rows && rows[k].stored.InProgress? ==> |SuccessesOf(done, k)| <= 1)
    }

    constructor ()
      ensures Valid() && rows == map[] && healthy && done == []
    {
      rows, healthy, done := map[], true, [];
    }

    /** The reservation transaction: the row found, or a new one in progress. */
    method Reserve(k: Key, digest: string) returns (found: Option<Row>)
      modifies this`rows
      ensures found == if k in old(rows) then Some(old(rows)[k]) else None
      ensures rows == if k in old(rows) then old(rows) else old(rows)[k := Row(digest, InProgress)]
    {
      if k in rows {
        return Some(rows[k]);
      }
      rows := rows[k := Row(digest, InProgress)];
      found := None;
    }

    /** The delete that a failed action leaves behind: only its own untouched reservation goes. */
    method Release(k: Key, digest: string)
      modifies this`rows
      ensures rows == if k in old(rows) && old(rows)[k] == Row(digest, InProgress) then old(rows) - {k} else old(rows)
    {
      if k in rows && rows[k] == Row(digest, InProgress) {
        rows := rows - {k};
      }
    }

    method Complete(k: Key, digest: string, response: Response) returns (ok: bool)
      modifies this`rows
      ensures ok <==> k in old(rows) && old(rows)[k] == Row(digest, InProgress)
      ensures rows == if ok then old(rows)[k := Row(digest, Completed(response))] else old(rows)
    {
      ok := k in rows && rows[k] == Row(digest, InProgress);
      if ok {
        rows := rows[k := Row(digest, Completed(response))];
      }
    }

    /** One call. The lock keeps other calls out; a crash ends it between any two of its steps. */
    method Run(k: Key, digest: string, course: Course) returns (r: Reply)
      requires Valid()
      modifies this`rows, this`done
      ensures Valid()
      ensures !old(healthy) || !KeyValid(k.key) ==> !r.Answered? && rows == old(rows) && done == old(done)
      // A key that has a row is never acted on again.
      ensures k in old(rows) ==> rows == old(rows) && done == old(done)
      ensures r.Answered? ==> old(healthy) && KeyValid(k.key) && !course.CrashBeforeReserve?
      ensures old(healthy) && KeyValid(k.key) && k in old(rows) && !course.CrashBeforeReserve? ==>
                && rows == old(rows) && done == old(done)
                && r == (if old(rows)[k].requestDigest != digest then DifferentRequest
                         else if old(rows)[k].stored.InProgress? then Indeterminate
                         else Answered(Replayed(old(rows)[k].stored.response)))
      // A key without a row is acted on at most once in this call, and answers with what was stored.
      ensures k !in old(rows) && r.Answered? ==>
                course.Succeeds? && r.response == course.result && k in rows && rows[k] == Row(digest, Completed(r.response))
      ensures done == old(done) || (k !in old(rows) && Acts(course) && done == old(done) + [(k, digest, course.result)])
      ensures k !in old(rows) && course.Fails? && old(healthy) && KeyValid(k.key) ==> r == ActionFailed && k !in rows && done == old(done)
      // The reply to every course, when the call gets as far as a new reservation.
      ensures !old(healthy) ==> r == Unhealthy
      ensures old(healthy) && !KeyValid(k.key) ==> r == KeyInvalid
      ensures old(healthy) && KeyValid(k.key) && (k !in old(rows) || course.CrashBeforeReserve?) ==>
                r == (match course
                      case CrashBeforeReserve => Crashed
                      case CrashAfterReserve => Crashed
                      case Fails => ActionFailed
                      case FailsAndReleaseFails => ActionFailed
                      case CrashAfterAction(_) => Crashed
                      case CompletionFails(_) => ReservationChanged
                      case Succeeds(result) => Answered(result))
      ensures old(healthy) && KeyValid(k.key) && k !in old(rows) && Acts(course) ==> done == old(done) + [(k, digest, course.result)]
      // Whatever was interrupted after the reservation stays in progress for good.
      ensures k !in old(rows) && old(healthy) && KeyValid(k.key)
              && (course.CrashAfterReserve? || course.FailsAndReleaseFails? || course.CrashAfterAction? || course.CompletionFails?) ==>
                k in rows && rows[k] == Row(digest, InProgress)
      ensures forall j :: j != k ==> (j in rows <==> j in old(rows)) && (j in rows ==> rows[j] == old(rows)[j])
    {
      hide KeyValid, SuccessesOf;
      if !healthy {
        return Unhealthy;
      }
      if !KeyValid(k.key) {
        return KeyInvalid;
      }
      if course.CrashBeforeReserve? {
        return Crashed;
      }
      var found := Reserve(k, digest);
      if found.Some? {
        if found.value.requestDigest != digest {
          return DifferentRequest;
        }
        if found.value.stored.InProgress? {
          return Indeterminate;
        }
        return Answered(Replayed(found.value.stored.response));
      }
      if course.CrashAfterReserve? {
        return Crashed;
      }
      if course.Fails? {
        Release(k, digest);
        return ActionFailed;
      }
      if course.FailsAndReleaseFails? {
        return ActionFailed;
      }
      SuccessAppended(done, k, digest, course.result);
      done := done + [(k, digest, course.result)];
      if course.CrashAfterAction? {
        return Crashed;
      }
      if course.CompletionFails? {
        return ReservationChanged;
      }
      var ok := Complete(k, digest, course.result);
      r := if ok then Answered(course.result) else ReservationChanged;
    }

    /** Any sequence of calls: each key's action succeeds at most once, no row ever changes once it is there, and all
        answers for a key agree up to the duplicate flag. */
    method RunAll(calls: seq<(Key, string, Course)>) returns (replies: seq<Reply>)
      requires Valid()
      modifies this`rows, this`done
      ensures Valid() && |replies| == |calls|
      ensures forall k :: |SuccessesOf(done, k)| <= 1
      ensures forall k :: k in old(rows) ==> k in rows && rows[k] == old(rows)[k]
      ensures forall i, j :: 0 <= i < j < |calls| && calls[i].0 == calls[j].0 && replies[i].Answered? && replies[j].Answered? ==>
                && calls[i].1 == calls[j].1
                && Replayed(replies[i].response) == Replayed(replies[j].response)
    {
      replies := [];
      for n := 0 to |calls|
        invariant Valid() && |replies| == n
        invariant forall k :: k in old(rows) ==> k in rows && rows[k] == old(rows)[k]
        invariant AllRecorded(rows, calls[..n], replies)
      {
        hide AllRecorded;
        ghost var before := rows;
        var r := Run(calls[n].0, calls[n].1, calls[n].2);
        RecordNext(before, rows, calls[..n], replies, calls[n], r);
        assert calls[..n] + [calls[n]] == calls[..n + 1];
        replies := replies + [r];
      }
      assert calls[..|calls|] == calls;
    }
  }

  /** The row of an answered call: completed for that request, with that response up to the duplicate flag. */
  predicate Recorded(rows: map<Key, Row>, k: Key, digest: string, response: Response) {
    && k in rows && rows[k].requestDigest == digest && rows[k].stored.Completed?
    && Replayed(rows[k].stored.response) == Replayed(response)
  }

  predicate AllRecorded(rows: map<Key, Row>, calls: seq<(Key, string, Course)>, replies: seq<Reply>)
    requires |calls| == |replies|
  {
    forall i :: 0 <= i < |calls| && replies[i].Answered? ==> Recorded(rows, calls[i].0, calls[i].1, replies[i].response)
  }

  lemma RecordNext(before: map<Key, Row>, after: map<Key, Row>, calls: seq<(Key, string, Course)>, replies: seq<Reply>,
                   call: (Key, string, Course), reply: Reply)
    requires |calls| == |replies| && AllRecorded(before, calls, replies)
    requires forall k :: k in before ==> k in after && after[k] == before[k]
    requires reply.Answered? ==> Recorded(after, call.0, call.1, reply.response)
    ensures AllRecorded(after, calls + [call], replies + [reply])
  {
  }

  function SuccessesOf(done: seq<(Key, string, Response)>, k: Key): seq<(string, Response)> {
    if done == [] then []
    else
      var last := done[|done| - 1];
      SuccessesOf(done[..|done| - 1], k) + if last.0 == k then [(last.1, last.2)] else []
  }

  lemma SuccessAppended(done: seq<(Key, string, Response)>, k: Key, digest: string, r: Response)
    ensures forall j :: SuccessesOf(done + [(k, digest, r)], j) ==
                        SuccessesOf(done, j) + if j == k then [(digest, r)] else []
  {
    assert (done + [(k, digest, r)])[..|done|] == done;
  }
}
