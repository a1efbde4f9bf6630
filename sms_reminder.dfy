/** The reminder-eligibility flow: three short-circuit rules over an order's status, its
    order time and the time of the last reminder, and a language-model prompt that decides
    the cases no rule blocks.

    The clock reading and the timestamp parser are parameters: `now` is the current instant
    in milliseconds and `toMs(s)` is the instant, in milliseconds, that the timestamp text `s`
    denotes. The prompt is a parameter as well; it answers `None` when its call fails. */
module SmsReminderFlow {
  import opened Wrappers

  /** 24 hours in milliseconds. On millisecond instants, `elapsed / 3600000 < 24` holds exactly
      when `elapsed < 86400000`. */
  const DayMs: int := 24 * 3600 * 1000

  /** The flow's input record. All fields are text, as the input schema declares them. */
  datatype ReminderQuery = ReminderQuery(
    customerName: string,
    customerPhone: string,
    orderStatus: string,
    lastReminderSent: Option<string>,
    orderTimestamp: string)

  /** The flow's output record. */
  datatype ReminderDecision = ReminderDecision(shouldSendReminder: bool, reason: string)

  const NotPending := ReminderDecision(false, "Order is not pending.")
  const OrderTooRecent := ReminderDecision(false, "Order was placed less than 24 hours ago.")
  const ReminderTooRecent := ReminderDecision(false, "A reminder was already sent in the last 24 hours.")

  /** The decisions the rules themselves can produce. */
  predicate IsRuleDecision(d: ReminderDecision)
  {
    d == NotPending || d == OrderTooRecent || d == ReminderTooRecent
  }

  /** Milliseconds from the instant denoted by `stamp` up to `now` (negative for a future stamp). */
  function Elapsed(now: int, toMs: string -> int, stamp: string): int
  {
    now - toMs(stamp)
  }

  /** The situation in which none of the three rules applies, stated as one condition:
      a pending order, placed at least a day ago, with no reminder in the last day. */
  predicate Eligible(q: ReminderQuery, now: int, toMs: string -> int)
  {
    && q.orderStatus == "pending"
    && Elapsed(now, toMs, q.orderTimestamp) >= DayMs
    && (Present(q.lastReminderSent) ==> Elapsed(now, toMs, q.lastReminderSent.value) >= DayMs)
  }

  /** The flow: the first rule that blocks decides; otherwise the prompt's answer is returned as
      it is. `None` means the flow failed (the prompt call failed). */
  function Evaluate(q: ReminderQuery, now: int, toMs: string -> int,
                    prompt: ReminderQuery -> Option<ReminderDecision>): (r: Option<ReminderDecision>)
    // rule 1, whatever the timestamps
    ensures q.orderStatus != "pending" ==> r == Some(NotPending)
    // rule 2, whatever the last reminder
    ensures q.orderStatus == "pending" && Elapsed(now, toMs, q.orderTimestamp) < DayMs ==>
              r == Some(OrderTooRecent)
    // rule 3, only for a present, non-empty last-reminder stamp
    ensures q.orderStatus == "pending" && Elapsed(now, toMs, q.orderTimestamp) >= DayMs &&
            Present(q.lastReminderSent) && Elapsed(now, toMs, q.lastReminderSent.value) < DayMs ==>
              r == Some(ReminderTooRecent)
    // otherwise the prompt decides, and is returned verbatim
    ensures Eligible(q, now, toMs) ==> r == prompt(q)
    // a failure can only come from the prompt
    ensures r.None? ==> Eligible(q, now, toMs) && prompt(q).None?
  {
    if q.orderStatus != "pending" then
      Some(NotPending)
    else if Elapsed(now, toMs, q.orderTimestamp) < DayMs then
      Some(OrderTooRecent)
    else if Present(q.lastReminderSent) && Elapsed(now, toMs, q.lastReminderSent.value) < DayMs then
      Some(ReminderTooRecent)
    else
      prompt(q)
  }

  /** The prompt is consulted exactly when the order is eligible; in every other case the flow
      answers with one of the three rule decisions, none of which sends a reminder. */
  lemma DelegatesExactlyWhenEligible(q: ReminderQuery, now: int, toMs: string -> int,
                                     prompt: ReminderQuery -> Option<ReminderDecision>)
    ensures Eligible(q, now, toMs) ==> Evaluate(q, now, toMs, prompt) == prompt(q)
    ensures !Eligible(q, now, toMs) ==>
              var r := Evaluate(q, now, toMs, prompt);
              r.Some? && IsRuleDecision(r.value) && !r.value.shouldSendReminder
  {
  }

  /** When a rule blocks, the prompt's answer makes no difference to the decision. */
  lemma BlockedIgnoresPrompt(q: ReminderQuery, now: int, toMs: string -> int,
                             p1: ReminderQuery -> Option<ReminderDecision>,
                             p2: ReminderQuery -> Option<ReminderDecision>)
    requires !Eligible(q, now, toMs)
    ensures Evaluate(q, now, toMs, p1) == Evaluate(q, now, toMs, p2)
  {
  }

  /** A positive decision is reachable only through the prompt, for an eligible order. */
  lemma SendOnlyByDelegation(q: ReminderQuery, now: int, toMs: string -> int,
                             prompt: ReminderQuery -> Option<ReminderDecision>)
    requires Evaluate(q, now, toMs, prompt).Some?
    requires Evaluate(q, now, toMs, prompt).value.shouldSendReminder
    ensures Eligible(q, now, toMs)
    ensures Evaluate(q, now, toMs, prompt) == prompt(q)
  {
  }

  /** An order stamped in the future has a negative age and is blocked by the 24-hour rule. */
  lemma FutureOrderIsTooRecent(q: ReminderQuery, now: int, toMs: string -> int,
                               prompt: ReminderQuery -> Option<ReminderDecision>)
    requires q.orderStatus == "pending"
    requires toMs(q.orderTimestamp) > now
    ensures Evaluate(q, now, toMs, prompt) == Some(OrderTooRecent)
  {
  }

  /** Exactly 24 hours blocks nothing: both comparisons are strict. */
  lemma ExactlyOneDayDoesNotBlock(q: ReminderQuery, now: int, toMs: string -> int,
                                  prompt: ReminderQuery -> Option<ReminderDecision>)
    requires q.orderStatus == "pending"
    requires Elapsed(now, toMs, q.orderTimestamp) == DayMs
    requires Present(q.lastReminderSent) ==> Elapsed(now, toMs, q.lastReminderSent.value) == DayMs
    ensures Evaluate(q, now, toMs, prompt) == prompt(q)
  {
  }

  /** A missing or empty last-reminder stamp skips the third rule entirely: a pending order
      that is at least a day old goes straight to the prompt. */
  lemma AbsentReminderSkipsThirdRule(q: ReminderQuery, now: int, toMs: string -> int,
                                     prompt: ReminderQuery -> Option<ReminderDecision>)
    requires q.lastReminderSent == None || q.lastReminderSent == Some("")
    ensures q.orderStatus == "pending" && Elapsed(now, toMs, q.orderTimestamp) >= DayMs ==>
              Evaluate(q, now, toMs, prompt) == prompt(q)
  {
  }
}
