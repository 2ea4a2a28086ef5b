/** The transactional outbox: an append-only log that drops a message already published for the same
    kind, aggregate and revision. */
module Outbox {
  import opened Ledger
  import opened Sums

  datatype MessageKind = InvoicePaid | RefundRequested | FineInvoiceCreated | ActivationFailed | Activated

  // `invoice` is the invoice a message is about; `reconciled` marks a republished payment message.
  datatype Message = Message(
    kind: MessageKind,
    aggregate: Id,
    revision: int,
    contract: Option<Id>,
    invoice: Id,
    reconciled: bool)

  predicate SameKey(a: Message, b: Message) {
    a.kind == b.kind && a.aggregate == b.aggregate && a.revision == b.revision
  }

  predicate Published(outbox: seq<Message>, m: Message) {
    exists k :: 0 <= k < |outbox| && SameKey(outbox[k], m)
  }

  function PublishLocal(outbox: seq<Message>, m: Message): seq<Message> {
    if Published(outbox, m) then outbox else outbox + [m]
  }
}
