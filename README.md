# Reservation app: reminder policy and subscription store, modelled in Dafny

The repository is a small order-reservation application with two stacks. The Next.js stack holds
the SMS-reminder decision for pending orders: a flow of three short-circuit rules over an order's
status, its order time and the time of its last reminder, which hands every case no rule blocks
to a language-model prompt, and a server action that builds the flow's query from a stored order
and turns any failure into a fixed "do not send" decision. The Flask stack (`reservation_app.py`)
keeps a product catalogue and a list of availability subscriptions. A visitor subscribes to a
product by email, phone or both. An administrator toggles a product's availability, which
notifies or resets the product's subscribers, and deletes subscriptions.

Files:

- `wrappers.dfy`, module `Wrappers`: `Option`, `Result`, and `Present`, the truthiness of an
  optional string. JavaScript and Python agree on it: missing or empty is false.
- `sms_reminder.dfy`, module `SmsReminderFlow`: the query and decision records, the three rules,
  and `Eligible`, a one-condition reference definition of "no rule blocks". `Evaluate` is the
  flow. The current time `now` (integer milliseconds) is a parameter. So is the timestamp parser
  `toMs` (the millisecond value of `new Date(s)`) and the prompt (`None` when the prompt call
  fails).
- `actions.dfy`, module `Actions`: the order records of `src/types/index.ts`, the query built
  from an order, and the catch-all wrapper `CheckSmsReminder`.
- `reservation.dfy`, module `Reservation`: product and subscription records, `NextId`, the
  validation of a subscription request (`Admit`), the channel choice of a notification, the
  list transformations of toggling and deleting, and the class `Store`. The store holds the two
  lists as `seq` fields, and its methods update them in place: the toggle with loops and a
  running counter, as the source does.

The time rule `timeDiffInHours < 24` is stated on milliseconds as `now - t < 86400000`. That is
the same test for integer millisecond instants. The login check of the administrator routes is a
boolean parameter with an early return. Flashed messages become result values: a `Rejection`, an
`AdminError` or a `ToggleReport`.

Two facts about the code shape the model:

- The flow's query takes the order status as any string (its input schema says `z.string()`).
  Only the stored order restricts the status to two values (`Actions.OrderStatus`).
- The eligible case is decided by the prompt. The code has no built-in positive decision.

## Model

| member | source | states |
|---|---|---|
| `SmsReminderFlow.Evaluate` | src/ai/flows/sms-reminder.ts:62-94 | a non-pending status gives "Order is not pending." whatever the timestamps; a pending order younger than 24h (including one stamped in the future) gives "less than 24 hours ago" whatever the last reminder; an old enough order with a present last reminder younger than 24h gives "already sent"; an eligible order gets the prompt's answer verbatim; a failure happens only when the prompt fails on an eligible order |
| `SmsReminderFlow.DelegatesExactlyWhenEligible` | src/ai/flows/sms-reminder.ts:67-93 | an eligible query gets the prompt's answer; any other query gets one of the three rule decisions, none of which sends |
| `SmsReminderFlow.BlockedIgnoresPrompt` | src/ai/flows/sms-reminder.ts:67-90 | when a rule blocks, two different prompts give the same decision: the prompt is not consulted |
| `SmsReminderFlow.SendOnlyByDelegation` | src/ai/flows/sms-reminder.ts:92-93 | a decision to send is reachable only for an eligible order and is exactly the prompt's answer |
| `SmsReminderFlow.FutureOrderIsTooRecent` | src/ai/flows/sms-reminder.ts:63-79 | a pending order whose timestamp lies after `now` is blocked by the 24-hour rule |
| `SmsReminderFlow.ExactlyOneDayDoesNotBlock` | src/ai/flows/sms-reminder.ts:74-93 | exactly 24h since the order, and since the last reminder if any, blocks nothing: the prompt decides |
| `SmsReminderFlow.AbsentReminderSkipsThirdRule` | src/ai/flows/sms-reminder.ts:81-93 | a missing or empty last-reminder stamp skips the third rule: a pending order at least a day old goes to the prompt |
| `Actions.StatusText` | src/types/index.ts:18 | the stored status text is "pending" exactly for a pending order |
| `Actions.QueryOf` | src/app/actions.ts:8-14 | the query's name, phone, timestamp and last-reminder stamp are the order's; its status reads "pending" exactly when the order is pending |
| `Actions.CheckSmsReminder` | src/app/actions.ts:6-20 | the result is always a decision: the flow's decision unchanged when the flow succeeds, `{false, "An error occurred while checking."}` when it fails; it advises sending only for an eligible order on the prompt's say-so; a failing prompt never leads to sending |
| `Actions.AcceptedOrderIsNotPending` | src/app/actions.ts:6-15 | an accepted order always gets "Order is not pending.", whatever its timestamps and the prompt |
| `Actions.FailedPromptGivesErrorDecision` | src/app/actions.ts:16-19 | a prompt failure on an eligible order yields the fixed error decision |
| `Reservation.MaxOf` | reservation_app.py:85 | the result bounds every id and is one of them |
| `Reservation.NextId` | reservation_app.py:81-85 | 1 for an empty list, otherwise some id plus one; strictly greater than, so different from, every existing id |
| `Reservation.Admit` | reservation_app.py:114-160 | a request is accepted exactly when its type's contact fields are present (email, phone, or both), the product id is non-zero, the type is non-empty, the product exists, and no subscription has the same (email, product id); a missing contact field is refused with the message of its type (email, phone, both), then a missing selection, then an unknown product (exactly when the earlier checks pass and the product is absent), then a duplicate (exactly when all earlier checks pass and the pair exists); an accepted request yields the record with id `NextId` of the existing ids, `notified` false and the other fields as submitted |
| `Reservation.PhoneOnlyRequestsCollide` | reservation_app.py:144-149 | the duplicate test compares emails only: with one phone-only subscription (no email) for a product, every later phone-only request for it is refused as already subscribed |
| `Reservation.ChannelsFor` | reservation_app.py:88-103 | for type "email" only the email channel can fire, for "phone" only SMS, for "both" each channel whose contact is present, for any other type none; a channel fires only towards a present contact |
| `Reservation.AdmittedGetsRequestedChannels` | reservation_app.py:88-103 | a notice for an accepted subscription goes by email for type "email", by SMS for "phone", by both for "both", and by no channel for any other type |
| `Reservation.FindProduct` | reservation_app.py:231-234 | the index of the first product with the id, or none exactly when no product has it |
| `Reservation.NoticeCountIsFlipCount` | reservation_app.py:242-247 | the number of notices sent equals the number of subscriptions whose `notified` flag the marking turned from false to true |
| `Reservation.NoticesAreForAwaiting` | reservation_app.py:243-246 | every notice is for a subscription to the product not yet notified, and every such subscription gets one |
| `Reservation.MarkedHasNoNotices` | reservation_app.py:243-247 | after the marking no subscription to the product awaits a notice |
| `Reservation.ResetMakesAllAwaiting` | reservation_app.py:252-254 | after the reset every subscription to the product awaits a notice again |
| `Reservation.Without` | reservation_app.py:273 | the filtered list is no longer than the original and holds exactly the subscriptions whose id differs; a list in which no subscription carries the id comes back unchanged |
| `Reservation.DeleteShrinksIffPresent` | reservation_app.py:272-279 | the list shrinks exactly when some subscription carries the id |
| `Reservation.DeleteRemovesAt` | reservation_app.py:273 | when only index `k` carries the id, the filtered list is the original with position `k` cut out, the rest in order |
| `Reservation.DeleteRemovesOne` | reservation_app.py:273 | with unique ids, deleting the id at index `k` removes exactly that subscription and keeps the others in order, shortening the list by one |
| `Reservation.WithoutKeepsUniqueIds` | reservation_app.py:273 | deleting keeps subscription ids unique |
| `Reservation.Store.constructor` | reservation_app.py:27-30 | the store starts from the given product and subscription lists |
| `Reservation.Store.Subscribe` | reservation_app.py:114-166 | the result is `Admit` of the old lists; on success exactly the new record is appended and earlier records are untouched, and on refusal the subscriptions are unchanged; products never change; unique ids stay unique |
| `Reservation.Store.ToggleAvailability` | reservation_app.py:220-260 | it succeeds exactly when logged in and some product has the id; without login or for an unknown product nothing changes; otherwise exactly the first product with the id has its availability negated; becoming available marks every subscription to it notified, leaves the others unchanged, and reports the product name, the count and the notices; becoming unavailable resets the flag of every subscription to it; the third branch is unreachable (verified dead code); ids are unchanged |
| `Reservation.Store.NotifySubscribers` | reservation_app.py:242-247 | the loop leaves the subscriptions as `MarkNotified` of the old list and returns the notices of `Notices` of the old list, in list order, with the counter equal to their number |
| `Reservation.Store.ResetSubscribers` | reservation_app.py:252-254 | the loop leaves the subscriptions as `ResetNotified` of the old list |
| `Reservation.Store.DeleteSubscription` | reservation_app.py:262-280 | without login nothing changes; otherwise the list becomes `Without` the id, and success is reported exactly when some subscription had the id; products never change; unique ids stay unique |

## Left out

- Flask routing, templates, `flash` text and redirects, the login route with its hard-coded
  credentials, the admin panel's display mapping, and the start-up block that seeds default
  products (reservation_app.py:107-112, 168-217, 283-302). These are web plumbing. The logged-in
  session is a boolean parameter.
- JSON loading and saving in both stacks (reservation_app.py:33-79 and the `src/app/api` routes):
  whole-file I/O. Clock-derived order ids in the API routes are left out for the same reason.
- The `print` output of `send_notification`. Only its channel choice is modelled
  (`ChannelsFor`, and in the toggle the `Notice` list).
- The text of the language-model prompt (src/ai/flows/sms-reminder.ts:32-54). The prompt is an
  abstract parameter returning an optional decision. A missing output is modelled as a failure
  of the flow.
- ISO-8601 parsing and floating-point hours. Instants are integer milliseconds, and the parser
  is the parameter `toMs`. An unparseable timestamp (NaN in JavaScript, which passes every `< 24`
  test) is a caller error outside the model.
- Conversion of the form's `product_id` with `int(...)` (reservation_app.py:117). A missing or
  non-numeric value raises before any state change. The model receives an integer.
- `get_next_id` is applied to subscriptions only, through their id list. That is its one use in
  the core.
- Concurrency between requests: the Flask handlers share the global lists without locking. Each
  method is modelled as one atomic step.
- React components and their client-side checks and sorting: UI only.
