/** The size bound of the durable queue and what one row does to it. */
module Queue {
  import opened Domain
  import opened Ledger

  function RowSize(queue: map<Id, QueueRow>, id: Id): nat
    requires id in queue && queue[id].phase.Pending?
  {
    Utf8Length(queue[id].phase.content)
  }

  /** The sum does not depend on the order in which rows are picked. */
  lemma {:induction false} SizeOfRemove(queue: map<Id, QueueRow>, ids: set<Id>, id: Id)
    requires forall i <- ids :: i in queue && queue[i].phase.Pending?
    requires id in ids
    ensures SizeOf(queue, ids) == RowSize(queue, id) + SizeOf(queue, ids - {id})
    decreases ids
  {
    var pick :| pick in ids && SizeOf(queue, ids) == RowSize(queue, pick) + SizeOf(queue, ids - {pick});
    if pick != id {
      SizeOfRemove(queue, ids - {pick}, id);
      SizeOfRemove(queue, ids - {id}, pick);
      assert ids - {pick} - {id} == ids - {id} - {pick};
    }
  }

  /** Rows outside the summed set do not matter. */
  lemma {:induction false} SizeOfSame(a: map<Id, QueueRow>, b: map<Id, QueueRow>, ids: set<Id>)
    requires forall i <- ids :: i in a && i in b && a[i].phase.Pending? && a[i].phase == b[i].phase
    ensures SizeOf(a, ids) == SizeOf(b, ids)
    decreases ids
  {
    if ids != {} {
      var pick :| pick in ids;
      SizeOfRemove(a, ids, pick);
      SizeOfRemove(b, ids, pick);
      SizeOfSame(a, b, ids - {pick});
    }
  }

  lemma BytesAfterInsert(queue: map<Id, QueueRow>, id: Id, row: QueueRow)
    requires id !in queue && row.phase.Pending?
    ensures PendingIds(queue[id := row]) == PendingIds(queue) + {id}
    ensures |PendingIds(queue[id := row])| == |PendingIds(queue)| + 1
    ensures PendingBytes(queue[id := row]) == PendingBytes(queue) + Utf8Length(row.phase.content)
  {
    var q' := queue[id := row];
    assert PendingIds(q') == PendingIds(queue) + {id};
    SizeOfRemove(q', PendingIds(q'), id);
    assert PendingIds(q') - {id} == PendingIds(queue);
    SizeOfSame(q', queue, PendingIds(queue));
  }

  /** A row that leaves the pending phase, by deletion or failure, only lowers both totals. */
  lemma BytesAfterLeaving(queue: map<Id, QueueRow>, queue': map<Id, QueueRow>, id: Id)
    requires id in queue && queue[id].phase.Pending?
    requires PendingIds(queue') == PendingIds(queue) - {id}
    requires forall i <- PendingIds(queue') :: queue'[i].phase == queue[i].phase
    ensures |PendingIds(queue')| == |PendingIds(queue)| - 1
    ensures PendingBytes(queue') + RowSize(queue, id) == PendingBytes(queue)
  {
    SizeOfRemove(queue, PendingIds(queue), id);
    SizeOfSame(queue', queue, PendingIds(queue'));
  }

  /** The capacity query of the capture projector. */
  method PendingTotals(queue: map<Id, QueueRow>) returns (items: nat, bytes: nat)
    ensures items == |PendingIds(queue)| && bytes == PendingBytes(queue)
  {
    var rest := PendingIds(queue);
    items, bytes := 0, 0;
    while rest != {}
      invariant rest <= PendingIds(queue)
      invariant items + |rest| == |PendingIds(queue)|
      invariant bytes + SizeOf(queue, rest) == PendingBytes(queue)
      decreases rest
    {
      var id :| id in rest;
      SizeOfRemove(queue, rest, id);
      items, bytes, rest := items + 1, bytes + Utf8Length(queue[id].phase.content), rest - {id};
    }
  }
}
