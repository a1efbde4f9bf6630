/** The server action that the order card calls: it builds the flow's query from a stored order
    and turns every failure of the flow into a fixed negative decision. */
module Actions {
  import opened Wrappers
  import opened SmsReminderFlow

  /** The two statuses an order can have. */
  datatype OrderStatus = Pending | Accepted

  datatype Customer = Customer(name: string, phone: string, email: string)

  datatype OrderDetails = OrderDetails(category: string, quantity: int, status: OrderStatus, timestamp: string)

  /** A stored order; `lastReminderSent` is an optional timestamp. */
  datatype Order = Order(id: string, customer: Customer, order: OrderDetails, lastReminderSent: Option<string>)

  /** The status as the text stored in the order record. */
  function StatusText(s: OrderStatus): (t: string)
    ensures t == "pending" <==> s == Pending
  {
    match s
    case Pending => "pending"
    case Accepted => "accepted"
  }

  /** The decision returned when the flow fails. */
  const CheckFailed := ReminderDecision(false, "An error occurred while checking.")

  /** The query built from an order: customer name and phone, order status and timestamp, and the
      last-reminder stamp, each copied from the order. */
  function QueryOf(o: Order): (q: ReminderQuery)
    ensures q.customerName == o.customer.name && q.customerPhone == o.customer.phone
    ensures q.orderTimestamp == o.order.timestamp && q.lastReminderSent == o.lastReminderSent
    ensures q.orderStatus == "pending" <==> o.order.status == Pending
  {
    ReminderQuery(o.customer.name, o.customer.phone, StatusText(o.order.status),
                  o.lastReminderSent, o.order.timestamp)
  }

  /** The action: the flow's decision on success, the fixed error decision on failure. The
      result is always a decision; no failure escapes. */
  function CheckSmsReminder(o: Order, now: int, toMs: string -> int,
                            prompt: ReminderQuery -> Option<ReminderDecision>): (r: ReminderDecision)
    ensures Evaluate(QueryOf(o), now, toMs, prompt) == Some(r) || r == CheckFailed
    ensures Evaluate(QueryOf(o), now, toMs, prompt).Some? ==> Evaluate(QueryOf(o), now, toMs, prompt) == Some(r)
    ensures Evaluate(QueryOf(o), now, toMs, prompt).None? ==> r == CheckFailed
    // a reminder is advised only by the prompt, and only for an eligible order
    ensures r.shouldSendReminder ==> Eligible(QueryOf(o), now, toMs) && prompt(QueryOf(o)) == Some(r)
    // a failing prompt degrades to "do not send"
    ensures prompt(QueryOf(o)).None? ==> !r.shouldSendReminder
  {
    match Evaluate(QueryOf(o), now, toMs, prompt)
    case Some(d) => d
    case None => CheckFailed
  }

  /** An accepted order is never reminded, whatever its timestamps and whatever the prompt says. */
  lemma AcceptedOrderIsNotPending(o: Order, now: int, toMs: string -> int,
                                  prompt: ReminderQuery -> Option<ReminderDecision>)
    requires o.order.status == Accepted
    ensures CheckSmsReminder(o, now, toMs, prompt) == NotPending
  {
  }

  /** When the prompt fails on an eligible order the action answers with the error decision. */
  lemma FailedPromptGivesErrorDecision(o: Order, now: int, toMs: string -> int,
                                       prompt: ReminderQuery -> Option<ReminderDecision>)
    requires Eligible(QueryOf(o), now, toMs)
    requires prompt(QueryOf(o)).None?
    ensures CheckSmsReminder(o, now, toMs, prompt) == CheckFailed
  {
  }
}
