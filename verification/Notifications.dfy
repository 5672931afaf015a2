/** The notification rows: one per signal and channel, overwritten only after a failed delivery. */
module Notifications {

  datatype DeliveryStatus = Sent | Failed | OtherDelivery

  datatype Notification = Notification(id: string, sentAt: int, delivery: DeliveryStatus, payload: string)

  datatype Slot = Slot(signal: string, channel: string)

  datatype Creation = Creation(slot: Slot, notification: Notification)

  type Rows = map<Slot, Notification>

  function Applied(rows: Rows, c: Creation): Rows {
    if c.slot !in rows || rows[c.slot].delivery == Failed then rows[c.slot := c.notification] else rows
  }

  function RowsAfter(log: seq<Creation>): Rows {
    if log == [] then map[] else Applied(RowsAfter(log[..|log| - 1]), log[|log| - 1])
  }

  class NotificationRepository {
    var rows: Rows

    constructor ()
      ensures rows == RowsAfter([])
    {
      rows := map[];
    }

    method CreateNotification(slot: Slot, notification: Notification)
      modifies this
      ensures rows == Applied(old(rows), Creation(slot, notification))
    {
      if slot in rows && rows[slot].delivery != Failed {
        return;
      }
      rows := rows[slot := notification];
    }
  }

  /** The first creation for the slot that did not fail, or the length of the log. */
  predicate FirstDelivered(log: seq<Creation>, slot: Slot, k: nat) {
    && k < |log| && log[k].slot == slot && log[k].notification.delivery != Failed
    && forall j :: 0 <= j < k && log[j].slot == slot ==> log[j].notification.delivery == Failed
  }

  predicate LastFor(log: seq<Creation>, slot: Slot, k: nat) {
    && k < |log| && log[k].slot == slot
    && forall j :: k < j < |log| ==> log[j].slot != slot
  }

  /** A slot holds its first notification that did not fail, for good; until then, its last failed one. */
  lemma {:induction false} SlotHolds(log: seq<Creation>, slot: Slot, k: nat)
    ensures FirstDelivered(log, slot, k) ==> slot in RowsAfter(log) && RowsAfter(log)[slot] == log[k].notification
    ensures LastFor(log, slot, k) && (forall j :: 0 <= j < |log| && log[j].slot == slot ==>
      log[j].notification.delivery == Failed)
      ==> slot in RowsAfter(log) && RowsAfter(log)[slot] == log[k].notification
    ensures (forall j :: 0 <= j < |log| ==> log[j].slot != slot) ==> slot !in RowsAfter(log)
    ensures slot in RowsAfter(log) && (forall j :: 0 <= j < |log| && log[j].slot == slot ==>
      log[j].notification.delivery == Failed)
      ==> RowsAfter(log)[slot].delivery == Failed
  {
    if log != [] {
      SlotHolds(log[..|log| - 1], slot, k);
    }
  }
}
