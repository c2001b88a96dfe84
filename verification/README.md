# notification-service, modelled in Dafny

This project models the delivery lifecycle of the notification service.

- **Dispatcher.** `NotificationService.sendNotification`:
  - validates and normalises a submission and decides between SCHEDULED and QUEUED;
  - saves the event and writes a CREATED audit entry;
  - for an immediate notification, saves the event again as QUEUED and publishes it with the mapped broker priority.
- **Delivery worker.** `NotificationConsumer`:
  - delivers one message;
  - on success marks the event DELIVERED, audits it and acks;
  - sends any exception through `handleFailure`. Below three retries this bumps the counter, re-publishes and nacks. At the limit it fails the event, hands it to the dead-letter route and acks.
- **Dead-letter handler.** `DLQConsumer.processDLQ` marks the event DEAD_LETTERED and audits it.
- **Scheduled sweep.** `ScheduledNotificationProcessor` publishes every due SCHEDULED event with its rule's priority, then saves it as QUEUED.
- **Channel routing.** `NotificationDeliveryService.deliver` routes a delivery to a sender and stamps the outcome on the event.
- **Sender helpers.** Phone normalisation and validation in `SmsSender`, and address, subject and template defaulting in `EmailSender`.
- **Repository queries.** The semantics of the `NotificationEventRepository` queries.

Layout, one module per file:

- `common.dfy` (`Common`): nullable values, results, and the outcome of one foreign call.
- `text.dfy` (`Text`): the `java.lang.String` operations the core uses.
  - `trim` and `isBlank`;
  - ASCII `toUpperCase`/`toLowerCase`;
  - `equalsIgnoreCase`;
  - number formatting.
- `events.dfy` (`Events`): the event, audit entry, queue message, request and response records, plus the status constants.
- `infrastructure.dfy` (`Infrastructure`): the repositories and the broker.
  - `class Backend` holds the event table (a map keyed by id), the append-only audit trail, the main route and the dead-letter route, the identity counter, and a trace of every call made.
  - `Store`, `Op`, `Apply` and `Run` give the meaning of a sequence of calls.
- `dispatch.dfy` (`Dispatch`): `sendNotification`, the validation predicates, `mapPriority`, `getDateRangeStart` and `getEventStatus`.
- `consumer.dfy` (`Consumer`): `consumeNotification` and `handleFailure`.
- `deadletter.dfy` (`DeadLetter`): `processDLQ`.
- `sweeper.dfy` (`Sweeper`): `processScheduledNotifications`.
- `delivery.dfy` (`Delivery`): `deliver` and the three `deliverX` methods.
- `sms.dfy` (`Sms`) and `email.dfy` (`Email`): the sender helpers.
- `repository.dfy` (`Repository`): `findByFilters`, `findByStatusAndScheduledAtBefore` and the `*IgnoreCase` finders, as pure filters and sorts over the table's rows.

Every handler is a method on `Backend` and is proved against a function that lists the calls it makes. The pattern is `trace == old(trace) + XOps(...)` and `Snapshot() == Run(old(Snapshot()), XOps(...))`. The outer handlers also keep `Backend.Valid()`: every stored row sits under its own id with a retry count in [0, 3], and every queued message names a stored row. What the source promises is stated as lemmas about `Run(s, XOps(...))`.

Inputs that come from outside the program are parameters:

- the clock is `now`;
- `LocalDateTime.parse` is `parse`;
- each transport attempt (mail server, SMS gateway, push gateway) is `attempt`;
- whether the broker accepts a publish, and whether an ack or nack succeeds, are `publishOk`, `producerOk` and `settleOk`;
- a persistence fault after a successful delivery is `fault`;
- the position of the first sweep publish that throws is `failAt`.

## Model

Paths are relative to the repository root.

| member | source | states |
|---|---|---|
| Text.Trim | src/main/java/com/notification/service/NotificationService.java:50-55 | `trim().isEmpty()` holds exactly when every character is at most U+0020; a non-empty result starts and ends with a kept character |
| Text.TrimIdempotent | src/main/java/com/notification/service/NotificationService.java:96-97 | the trimmed recipient and message are already trimmed |
| Text.ToUpper | src/main/java/com/notification/service/NotificationService.java:59 | upper-casing keeps the length and maps every character independently |
| Dispatch.MapPriority | src/main/java/com/notification/service/NotificationService.java:182-190 | in any case, CRITICAL maps to 10, HIGH to 7, MEDIUM to 5 and LOW to 1; every other priority maps to 3, and 3 only for those; always between 1 and 10 |
| Dispatch.MapPriorityIgnoresCase | src/main/java/com/notification/service/NotificationService.java:183 | a priority and its upper-case form map to the same broker priority |
| Dispatch.MapPriorityOrdered | src/main/java/com/notification/service/NotificationService.java:184-187 | for any spellings that upper-case to LOW, MEDIUM, HIGH and CRITICAL, the broker priorities are strictly increasing |
| Dispatch.ValidPriorityIsMapped | src/main/java/com/notification/service/NotificationService.java:182-188 | a validated priority never falls to the default 3 |
| Dispatch.ChannelDefaultsToEmail | src/main/java/com/notification/service/NotificationService.java:57-59 | an absent or blank channel becomes EMAIL and is accepted |
| Dispatch.NamedChannelAccepted | src/main/java/com/notification/service/NotificationService.java:58-64 | any name that upper-cases to EMAIL, SMS or PUSH passes the presence test, is upper-cased and accepted |
| Dispatch.AcceptedChannelIsUnpadded | src/main/java/com/notification/service/NotificationService.java:58-64 | a given channel passes only if it has no trimmable character at all: the presence test trims but the normalisation does not |
| Dispatch.AcceptedPriorityIsUnpadded | src/main/java/com/notification/service/NotificationService.java:67-73 | the same for a given priority |
| Dispatch.ParseSchedule | src/main/java/com/notification/service/NotificationService.java:76-85 | an error exactly when a non-blank time is given and the parser rejects it, with the ISO-8601 message; otherwise the parsed time, or none for an absent or blank one |
| Dispatch.BuildEvent | src/main/java/com/notification/service/NotificationService.java:48-102 | accepted exactly when recipient and message are present, channel and priority are valid and the time parses; errors come in the source's order with its messages; the event has the trimmed recipient and message, a default subject, retry count 0, and status SCHEDULED exactly when the time is strictly after now, else QUEUED |
| Dispatch.SendNotification | src/main/java/com/notification/service/NotificationService.java:43-150 | returns `DispatchResult`, makes exactly the calls `DispatchOps` lists, leaves the state `Run` gives, keeps the backend valid, and takes a new id only for an accepted request |
| Dispatch.Record | src/main/java/com/notification/service/NotificationService.java:104-141 | the same, once validation has produced an event or an error |
| Dispatch.Persist | src/main/java/com/notification/service/NotificationService.java:104-141 | insert, CREATED audit entry, then either return SCHEDULED or go through the queueing stage |
| Dispatch.Enqueue | src/main/java/com/notification/service/NotificationService.java:118-133 | save as QUEUED, then publish at the mapped priority and answer QUEUED, or roll back and raise the wrapped publish failure |
| Dispatch.DispatchKeepsWellFormed | src/main/java/com/notification/service/NotificationService.java:92-133 | dispatch keeps the store well formed once the id counter has moved past the new row |
| Dispatch.CreatedKeepsWellFormed | src/main/java/com/notification/service/NotificationService.java:104-112 | the insert and its audit entry keep the store well formed and store the new id |
| Dispatch.QueueKeepsWellFormed | src/main/java/com/notification/service/NotificationService.java:118-133 | the queueing stage, including its rollback, keeps the store well formed |
| Dispatch.RejectedChangesNothing | src/main/java/com/notification/service/NotificationService.java:50-55 | a missing or blank recipient or message saves, audits and publishes nothing, and raises the matching IllegalArgumentException |
| Dispatch.DeferredIsNotPublished | src/main/java/com/notification/service/NotificationService.java:87-133 | a future notification is stored SCHEDULED with one CREATED entry naming its time, nothing is published, and the response says SCHEDULED |
| Dispatch.ImmediateIsPublishedAfterSave | src/main/java/com/notification/service/NotificationService.java:118-133 | an immediate notification gets exactly four calls: the stored QUEUED row is published once, right after the save that marks it QUEUED, at a priority other than 3; one CREATED entry; the response says QUEUED |
| Dispatch.PublishFailureRollsBack | src/main/java/com/notification/service/NotificationService.java:168-179 | a failed publish restores every table and raises "Failed to send notification: Failed to publish to queue" |
| Dispatch.GetEventStatus | src/main/java/com/notification/service/NotificationService.java:276-283 | the stored event exactly when the id is stored, else "Event not found: id" |
| Dispatch.ResponseMatchesStore | src/main/java/com/notification/service/NotificationService.java:135-141 | a successful response names the new id, and `getEventStatus` on that id gives the status the response reports |
| Dispatch.DateRangeStart | src/main/java/com/notification/service/NotificationService.java:247-270 | a bound only for a present, non-blank range that is not an "all" keyword; a bound is 24 hours, 7 days or 30 days before now |
| Dispatch.WindowSeconds | src/main/java/com/notification/service/NotificationService.java:259-264 | 24 hours exactly for "24h"/"24hr", 7 days exactly for "7d"/"7day"/"7days", 30 days exactly for "30d"/"30day"/"30days"; a length exists only for a key starting with a digit, so never for an "all" keyword |
| Dispatch.WindowStart | src/main/java/com/notification/service/NotificationService.java:259-264 | a bound is now minus the window's length, and never for an unbounded range |
| Dispatch.AllTimeIgnoresCase | src/main/java/com/notification/service/NotificationService.java:249-251 | the "all" keywords match in any case |
| Dispatch.DateRangeIgnoresCase | src/main/java/com/notification/service/NotificationService.java:248-264 | a range and its lower-case form give the same bound |
| Dispatch.WindowNameIsBound | src/main/java/com/notification/service/NotificationService.java:248-264 | a window name in any case and with any padding gives now minus that window |
| Infrastructure.Backend.Insert | src/main/java/com/notification/service/NotificationService.java:104 | a new row gets the next identity value, and the counter moves on |
| Infrastructure.Backend.Rollback | src/main/java/com/notification/service/NotificationService.java:43 | a rollback restores the tables, but not the identity counter |
| Consumer.AfterFailure | src/main/java/com/notification/service/NotificationConsumer.java:77-105 | the reason and time are recorded; below 3 the counter rises by exactly 1 and the status is RETRY_SCHEDULED; otherwise the counter is unchanged and the status is FAILED; the bound 0..3 is kept; nothing else changes |
| Consumer.HandleFailure | src/main/java/com/notification/service/NotificationConsumer.java:74-125 | makes exactly the calls `FailureOps` lists and leaves the state `Run` gives |
| Consumer.RecordFailure | src/main/java/com/notification/service/NotificationConsumer.java:85-120 | save, audit, then the optional hand-off and settlement, in that order |
| Consumer.HandOff | src/main/java/com/notification/service/NotificationConsumer.java:96-119 | the hand-off happens only if the producer works, the ack or nack only if the channel works |
| Consumer.FailureEffect | src/main/java/com/notification/service/NotificationConsumer.java:81-121 | the row becomes its failed version; one RETRY_SCHEDULED entry naming the new count, or one FAILED entry with the reason; re-published without priority below the limit, sent to the dead-letter route at it |
| Consumer.FailureSettlesOnce | src/main/java/com/notification/service/NotificationConsumer.java:99-124 | settles once: nack without requeue below the limit, ack at it; nothing when the channel throws |
| Consumer.FailureKeepsWellFormed | src/main/java/com/notification/service/NotificationConsumer.java:77-120 | `handleFailure` on a stored row keeps the store well formed |
| Consumer.Consume | src/main/java/com/notification/service/NotificationConsumer.java:37-72 | makes exactly the calls `ConsumeOps` lists, leaves the state `Run` gives, and keeps the backend valid, so the counter never exceeds 3 |
| Consumer.AfterDelivery | src/main/java/com/notification/service/NotificationConsumer.java:45-71 | a delivery failure goes to `handleFailure`; a success stamps DELIVERED and the current time and enters the success block |
| Consumer.Delivered | src/main/java/com/notification/service/NotificationConsumer.java:50-70 | a failed save goes to `handleFailure`, else the row is saved and the audit stage follows |
| Consumer.AuditDelivered | src/main/java/com/notification/service/NotificationConsumer.java:54-70 | a failed audit save goes to `handleFailure`, else the SENT entry is appended and the ack stage follows |
| Consumer.AckDelivered | src/main/java/com/notification/service/NotificationConsumer.java:62-70 | a failed ack goes to `handleFailure`, else one ack |
| Consumer.SuccessPath | src/main/java/com/notification/service/NotificationConsumer.java:47-63 | on success only the row's status (DELIVERED) and time change, one SENT entry naming the recipient is appended, nothing is published, and exactly one ack is sent |
| Consumer.FailurePath | src/main/java/com/notification/service/NotificationConsumer.java:45-124 | any exception (delivery, save, audit, ack) reaches `handleFailure` with its message; the row, the audit tail, the routes and the settlement are as `handleFailure` promises, whatever `deliver` had stamped |
| Consumer.FailureAfterDelivery | src/main/java/com/notification/service/NotificationConsumer.java:45-70 | the same, for each point in the success block where the exception can occur |
| Consumer.FailureIsFailedFrom | src/main/java/com/notification/service/NotificationConsumer.java:68-70 | a delivery failure or a failed first save leaves exactly the `handleFailure` state |
| Consumer.FailureAfterSave | src/main/java/com/notification/service/NotificationConsumer.java:52-70 | an audit failure after the DELIVERED save leaves the same state, because the failed version overwrites the row |
| Consumer.FailureAfterAudit | src/main/java/com/notification/service/NotificationConsumer.java:55-70 | an ack failure leaves the SENT entry in place, followed by the failure entry |
| Consumer.StampsOverwritten | src/main/java/com/notification/service/NotificationConsumer.java:77-105 | the status, reason and time that `deliver` or the success block stamped do not affect what `handleFailure` writes |
| Consumer.FailTimesCount | src/main/java/com/notification/service/NotificationConsumer.java:81-105 | after n consecutive failures the counter is min(start + n, 3); the row is RETRY_SCHEDULED while start + n <= 3, and FAILED after that |
| Consumer.FourthFailureIsFinal | src/main/java/com/notification/service/NotificationConsumer.java:81-120 | from 0, failures 1 to 3 schedule retries 1 to 3; only the fourth fails the event |
| Consumer.ConsumeKeepsWellFormed | src/main/java/com/notification/service/NotificationConsumer.java:81-86 | a message from the main route keeps the store well formed, so the retry count stays within 0..3, and keeps the stored ids |
| DeadLetter.ProcessDlq | src/main/java/com/notification/service/DLQConsumer.java:29-55 | makes exactly the calls `DeadLetterOps` lists, leaves the state `Run` gives, and keeps the backend valid |
| DeadLetter.DeadLetterEffect | src/main/java/com/notification/service/DLQConsumer.java:38-48 | whatever the incoming status, the row becomes DEAD_LETTERED with the current time and nothing else changes; other rows are untouched; one DEAD_LETTERED entry; nothing published |
| DeadLetter.DeadLetterFaults | src/main/java/com/notification/service/DLQConsumer.java:36-54 | a failed save changes nothing; a failed audit save leaves the row dead-lettered with no entry |
| DeadLetter.ProcessTwice | src/main/java/com/notification/service/DLQConsumer.java:38-48 | processing twice gives the same status and two entries |
| DeadLetter.DeadLetterKeepsWellFormed | src/main/java/com/notification/service/DLQConsumer.java:38-40 | the handler keeps the store well formed |
| Sweeper.RulePriority | src/main/java/com/notification/service/ScheduledNotificationProcessor.java:47-52 | with a rule for the event's type, the rule's priority mapped as `mapPriority` does (`Dispatch.MapPriority`); 5 when the type is absent or has no rule; always between 1 and 10 |
| Sweeper.SweepIgnoresEventPriority | src/main/java/com/notification/service/ScheduledNotificationProcessor.java:47-58 | a CRITICAL event with no rule is published at 5, where the dispatcher would use 10 |
| Sweeper.Sweep | src/main/java/com/notification/service/ScheduledNotificationProcessor.java:34-66 | the due list is read once; it makes exactly the calls `SweepOps` lists for the first min(failAt, number due) events (none when nothing is due), leaves the state `Run` gives, and keeps the backend valid |
| Sweeper.PublishDue | src/main/java/com/notification/service/ScheduledNotificationProcessor.java:45-65 | the loop: exactly the calls for the prefix before the first publish that throws |
| Sweeper.StepEffect | src/main/java/com/notification/service/ScheduledNotificationProcessor.java:55-62 | one turn appends the event with its rule priority to the main route and then stores it QUEUED with the current time |
| Sweeper.SweepOpsShape | src/main/java/com/notification/service/ScheduledNotificationProcessor.java:45-62 | each event is published once, immediately followed by its save, in list order |
| Sweeper.SweepQueues | src/main/java/com/notification/service/ScheduledNotificationProcessor.java:45-65 | the main route gains exactly the announced messages, in order; nothing is audited or dead-lettered |
| Sweeper.SweepRows | src/main/java/com/notification/service/ScheduledNotificationProcessor.java:45-62 | every swept row becomes QUEUED and every other row is untouched |
| Sweeper.SweepKeepsWellFormed | src/main/java/com/notification/service/ScheduledNotificationProcessor.java:55-62 | sweeping stored rows keeps the store well formed and its ids |
| Sweeper.DueListing | src/main/java/com/notification/service/ScheduledNotificationProcessor.java:36-37 | the due list holds stored rows, each once, in id order |
| Sweeper.DueMembers | src/main/java/com/notification/service/ScheduledNotificationProcessor.java:36-37 | a row is due exactly when it is stored SCHEDULED with a time strictly before now |
| Sweeper.StoredDueIsListed | src/main/java/com/notification/service/ScheduledNotificationProcessor.java:36-37 | every stored due row is listed |
| Sweeper.SweepDrainsDue | src/main/java/com/notification/service/ScheduledNotificationProcessor.java:36-62 | after a complete sweep no stored row is SCHEDULED with a time before now |
| Sweeper.NothingDue | src/main/java/com/notification/service/ScheduledNotificationProcessor.java:36-41 | when no stored row is due, the due list is empty and the method returns before the loop |
| Sweeper.SecondSweepIsEmpty | src/main/java/com/notification/service/ScheduledNotificationProcessor.java:36-41 | a second sweep at the same time finds nothing due and makes no call |
| Sweeper.AbortLeavesRestDue | src/main/java/com/notification/service/ScheduledNotificationProcessor.java:45-65 | when the publish at position k throws, every event from k on is still due, so the next run sends it |
| Sweeper.RestStillDue | src/main/java/com/notification/service/ScheduledNotificationProcessor.java:45-65 | the same, for one event |
| Delivery.Route | src/main/java/com/notification/service/NotificationDeliveryService.java:32-37 | EMAIL, SMS and PUSH, in any case, go to the HTML mail, SMS and push senders; anything else to none; the simple mail path is never chosen |
| Delivery.Deliver | src/main/java/com/notification/service/NotificationDeliveryService.java:28-76 | an unsupported channel invokes no sender and raises "Unsupported channel"; otherwise the status is DELIVERED or FAILED as the sender returns or throws; only a push failure writes "PUSH: " and the message; nothing else changes |
| Delivery.DeliverSucceeds | src/main/java/com/notification/service/NotificationDeliveryService.java:32-68 | a delivery succeeds exactly when the channel routes, the transport accepts, and for SMS the normalised number is valid |
| Delivery.DeliverPushAsWritten | src/main/java/com/notification/service/NotificationDeliveryService.java:63-76 | as written, every push attempt fails, with FAILED and "PUSH: " and the null-pointer message |
| Delivery.PushAsWrittenNeverDelivers | src/main/java/com/notification/service/NotificationDeliveryService.java:63-68 | the gateway's success is delivered by the corrected routing but not by the code as written |
| Sms.Clean | src/main/java/com/notification/service/sender/SmsSender.java:44 | keeps only digits and '+', each as often as in the input; a one-character string is kept exactly when it is a digit or '+', and a string made only of them is unchanged |
| Sms.CleanConcat | src/main/java/com/notification/service/sender/SmsSender.java:44 | cleaning a concatenation cleans each part, so with the one-character case the kept characters stay in input order |
| Sms.Digits | src/main/java/com/notification/service/sender/SmsSender.java:61 | keeps only digits and is no longer than the input; a one-character string is kept exactly when it is a digit (with `DigitsConcat`, an in-order filter) |
| Sms.DigitsOfClean | src/main/java/com/notification/service/sender/SmsSender.java:44 | cleaning loses no digit |
| Sms.Normalize | src/main/java/com/notification/service/sender/SmsSender.java:43-55 | a cleaned number already starting with '+' is returned unchanged; the ten-character branch prefixes "+1"; every other cleaned number gets '+'; the result starts with '+' and holds only digits and '+' |
| Sms.NormalizeIdempotent | src/main/java/com/notification/service/sender/SmsSender.java:43-55 | normalising twice is normalising once |
| Sms.NormalizeDigits | src/main/java/com/notification/service/sender/SmsSender.java:44-54 | keeps every digit of the input and adds the digit 1 exactly on the "+1" branch |
| Sms.NormalizedValidity | src/main/java/com/notification/service/sender/SmsSender.java:57-63 | a normalised number is valid exactly when the input's digits, plus the added country code, number 11 to 15 |
| Sms.TenDigitsGetCountryCode | src/main/java/com/notification/service/sender/SmsSender.java:48-49 | ten cleaned digits become "+1" and those digits, which is valid |
| Sms.InnerPlusFailsValidation | src/main/java/com/notification/service/sender/SmsSender.java:44-63 | for every input whose cleaned form has ten characters, does not start with '+' and holds a '+' inside, normalisation prefixes "+1" and the result fails validation |
| Sms.SendSms | src/main/java/com/notification/service/sender/SmsSender.java:19-41 | sends exactly when the normalised number is valid and the gateway accepts; an invalid number fails with "Invalid phone number format" before the gateway; every failure carries the "Failed to send SMS: " prefix |
| Email.ResolveAddress | src/main/java/com/notification/service/sender/EmailSender.java:78-96 | the trimmed configured address, or the fallback for a null or whitespace-only one; never empty, never padded |
| Email.ResolveSubject | src/main/java/com/notification/service/sender/EmailSender.java:98-104 | a non-blank subject as given, otherwise "[Notification] " + (type or "Update") + " \| ID " + id; never empty |
| Email.ComposeHtmlEmail | src/main/java/com/notification/service/sender/EmailSender.java:56-110 | addressed to the recipient, with the resolved subject; From and Reply-To are the resolved configured addresses (never empty); the template gets the type or "N/A", the escaped message, the channel and the id |
| Email.SendHtmlEmail | src/main/java/com/notification/service/sender/EmailSender.java:56-75 | sends exactly when the mail server accepts; a failure carries a fixed message |
| Email.SendSimpleEmail | src/main/java/com/notification/service/sender/EmailSender.java:38-54 | the same, with its own message; `deliver` never calls it |
| Repository.FindByStatusAndScheduledAtBefore | src/main/java/com/notification/repository/NotificationEventRepository.java:20 | exactly the rows with that exact status and a scheduled time strictly before the bound; a null time never matches |
| Repository.NoneDue | src/main/java/com/notification/repository/NotificationEventRepository.java:20 | with no due row, the lookup is empty |
| Repository.FindIgnoreCase | src/main/java/com/notification/repository/NotificationEventRepository.java:15-17 | exactly the rows whose column equals the value ignoring case |
| Repository.SortByCreatedDesc | src/main/java/com/notification/repository/NotificationEventRepository.java:29 | a permutation of its input, ordered newest first |
| Repository.FindByFilters | src/main/java/com/notification/repository/NotificationEventRepository.java:24-35 | exactly the rows meeting every non-null constraint (case-insensitive columns, createdAt at or after the start), as a reordering of the filtered table, newest first |
| Repository.FiltersAgreeWithFinder | src/main/java/com/notification/repository/NotificationEventRepository.java:15-27 | with one column constrained, the rows of the matching `*IgnoreCase` finder, reordered |
| Repository.NoFilterSelectsAll | src/main/java/com/notification/repository/NotificationEventRepository.java:25-28 | with no constraint, the whole table |

## Findings

| source | as written | input that shows it | evidently intended | confidence | as-written member | corrected member |
|---|---|---|---|---|---|---|
| src/main/java/com/notification/service/NotificationDeliveryService.java:65 | `deliverPush` builds its own `FirebasePushSender` with `new`. The injected `senderConfig` of that instance is null, so `sendPush` throws a NullPointerException on its first line (src/main/java/com/notification/service/sender/FirebasePushSender.java:55), and every PUSH delivery fails. | any event whose channel is "push", even with the gateway accepting | use the injected `pushSender` field, so that the gateway's outcome decides | high (not executed) | Delivery.DeliverPushAsWritten | Delivery.Deliver |

`Delivery.PushAsWrittenNeverDelivers` shows the difference: with the gateway accepting, the as-written path stamps FAILED and the corrected one stamps DELIVERED. The rest of the model (`Consumer`) uses the corrected `Delivery.Deliver`.

## Left out

- The code needs four failures, not three, to dead-letter an event. The specification says the third failure hands it to the dead-letter route. The code checks `retryCount < 3` before bumping the counter, so the event is FAILED only on the fourth consecutive failure (src/main/java/com/notification/service/NotificationConsumer.java:81). The model follows the code (`Consumer.FourthFailureIsFinal`).
- The NotificationEvent entity file and the NotificationRequest DTO are out of date. The entity lacks priority, subject, notificationType and scheduledAt, and never sets createdAt. The DTO (src/main/java/com/notification/dto/NotificationRequest.java:11-22) lacks channel, priority, scheduledTime and subject, which NotificationService reads. The model's `Event` and `Request` carry the fields the services use. createdAt and updatedAt are the dispatch time.
- `Text.ToUpper`, `Text.ToLower`: model Java case mapping on ASCII letters only. Locale-specific and non-ASCII case mapping is not modelled.
- Timestamps are abstract integer instants, and `now` is one parameter per handler call, whereas the source reads the clock several times within a handler. Formatting a `LocalDateTime` into the CREATED details is modelled as integer formatting. `LocalDateTime.parse` is an uninterpreted `parse` parameter.
- `Dispatch.DispatchKeepsWellFormed`: in the dispatcher, the audit save failure (caught and logged at src/main/java/com/notification/service/NotificationService.java:206-208) and any failure of the two event saves are not modelled. Each save and the audit append always succeed. The broker publish is the only failure modelled, and it is modelled as a full rollback. The subtleties of a rollback-only transaction after a caught audit exception are not modelled.
- Persistence failures inside `handleFailure` (an event save or audit save that throws there escapes the listener) and the broker's own dead-lettering of a rejected message (src/main/java/com/notification/config/RabbitMQConfig.java:30-31) are not modelled. Producer failures in the re-publish and dead-letter sends are modelled as swallowed (`producerOk`), and ack/nack IOExceptions as logged (`settleOk`).
- `Consumer.Consume` assumes the message came from the main route of a valid store. The consumer re-saves the event carried by the message, not the stored row; the model does the same. Concurrent listeners and the scheduler thread are out of scope: each handler call is one sequential step.
- SQL tie order in `ORDER BY createdAt DESC` is not fixed: `Repository.SortByCreatedDesc` promises an ordering and a permutation, not which of two equal timestamps comes first. The due list is taken in id order. The rule lookup is an exact map lookup by notification type.
- `Sweeper.Sweep`: models a throwing publish (`failAt`) but not a throwing save inside the loop.
- `Sms.SendSms`: a failure of `Twilio.init`, which the source makes before normalising the number, is folded into the gateway outcome. The model consults that outcome only after validation, so for an invalid number it reports the validation message.
- Foreign transports are not modelled:
  - JavaMail `send`, Twilio `init` and `Message.creator`, and Firebase initialisation and `send` become one `attempt` outcome per delivery.
  - `Email.SendHtmlEmail` does not model which exception message the mail server raises; it only reports that the send failed.
  - The HTML template body, the timestamp and year it shows, and HTML escaping (an uninterpreted `escape` function) are not modelled.
- The delegations `getEventsByStatus`, `getEventsByPriority`, `getEventsByChannel`, `getFilteredEvents` and `getAllEvents` (src/main/java/com/notification/service/NotificationService.java:215-241, 285-288) forward to the repository queries modelled in `Repository`. `getFilteredEvents` first turns its date range into a bound with `getDateRangeStart` (`Dispatch.DateRangeStart`) and passes that bound to `findByFilters` (`Repository.FindByFilters`); the composition itself has no member of its own. `createAuditLog` is the CREATED audit append inside `Dispatch.Persist`.
- Log output, exception stack traces and HTTP mapping of exceptions are not modelled. A null exception message is modelled as a string.
