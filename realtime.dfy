/** Change notifications of the remote service and the listeners the hooks
    register for them. Only the columns a listener filters on are modelled:
    the table, the kind of change and the row's couple id. */
module Realtime {
  import opened Common

  datatype Op = Insert | Update | Delete

  datatype Change = Change(table: string, op: Op, coupleId: string)

  /** `event: '*'` or one operation. */
  datatype OpFilter = AnyOp | OnlyOp(op: Op)

  /** One `.on('postgres_changes', { event, table, filter })` registration;
      `couple` is the `couple_id=eq.<id>` filter when the hook sets one. */
  datatype Listener = Listener(table: string, ops: OpFilter, couple: Option<string>)

  predicate Matches(l: Listener, c: Change) {
    && l.table == c.table
    && (l.ops.AnyOp? || l.ops.op == c.op)
    && (l.couple.Some? ==> l.couple.value == c.coupleId)
  }

  /** Whether some listener of the channel receives the change. */
  predicate Receives(ls: seq<Listener>, c: Change) {
    exists k :: 0 <= k < |ls| && Matches(ls[k], c)
  }

  /** The one `event: '*'` listener a refetch-style hook registers on its
      table while a couple is bound; `scoped` adds the couple filter. */
  function TableChannel(table: string, coupleId: Option<string>, scoped: bool): seq<Listener> {
    if Given(coupleId) then [Listener(table, AnyOp, if scoped then Some(coupleId.value) else None)]
    else []
  }

  /** Such a channel receives every kind of change on its table (of the bound
      couple's rows when scoped), and nothing while no couple is bound. */
  lemma TableChannelReceives(table: string, coupleId: Option<string>, scoped: bool, c: Change)
    ensures Receives(TableChannel(table, coupleId, scoped), c)
        <==> Given(coupleId) && c.table == table && (scoped ==> c.coupleId == coupleId.value)
  {
    if Given(coupleId) && c.table == table && (scoped ==> c.coupleId == coupleId.value) {
      assert Matches(TableChannel(table, coupleId, scoped)[0], c);
    }
  }
}
