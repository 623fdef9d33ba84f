# What Javi promises, proved

Javi is a delivery notifier: a shop starts a delivery, the recipient gets one message with a tracking link,
later a rating request, and their data is erased some time after. This project models the parts of the
repository whose behaviour no single function shows, and proves what they keep over every run. `dafny verify
dfyconfig.toml` checks everything.

| file | models |
|---|---|
| `Prelude`, `Calendar`, `Text`, `Deliveries` | shared shapes, wall-clock days and months, lines of text, the delivery row |
| `Quotas` | the checks before every message (notifications/quotas.py) |
| `Sending`, `SendingOnce`, `SendingCaps`, `SendingRatings`, `SendingErased` | starts, resends, rating requests and the erasure of a delivery interleaved step by step, with row locks and crashes |
| `SendingOrigins`, `SendingAlone`, `SendingRuns` | where every message comes from and whom it reaches; one request undisturbed |
| `Lifecycle`, `TimeWindow` | one delivery from creation to erasure, and its rating task |
| `Chains`, `Escalation`, `EscalationLaws`, `EscalationLoss`, `Receipts` | provider chains, escalation to untried channels, what each step records, what dying processes cost, delivery reports |
| `Retention`, `RetentionQuotas` | the batched erasure of recipient data, and why quotas cannot see it |
| `IdempotentCreate` | creating a delivery under an Idempotency-Key |
| `RateLimit` | fixed-window counters in a table that is swept |
| `Billing` | the subscription of a shop, its trial and its access |
| `Changelog`, `ChangelogFormat`, `ChangelogRoundTrip`, `ChangelogTexts`, `ChangelogNumbers`, `ChangelogErrors` | the strict changelog parser, exactly which texts it accepts, how versions and dates compare, what it refuses and why |
| `ChangelogRelease`, `ChangelogReleaseProof`, `ChangelogReleaseEffect`, `ChangelogTool` | the release command, its one effect, its loops, and the release notes |

How it is built:

- The database is a value (maps, sets, sequences). A concurrent protocol is a machine whose actions are the
  points at which other requests can come between; results are about every list of actions, enabled or not.
- Where the code changes an object field by field or runs a loop, there is a class or a method with that loop,
  proved against the function the results are about.
- The functions the results go through are pinned down by results of their own (`...Means`, `...Alone`, `...Exactly`), which
  say what they give in terms of log rows, dates, status words, digits and lines of text.
- Clocks, geocoding, routes, provider answers and opt-outs are parameters. A provider chain asks an arbitrary
  `Provider -> Answer`.
- Time is in whole seconds of Belgrade wall-clock time since 0001-01-01, or since 1970 for the rate limiter.

Where the code does not do what its comments say, the code is modelled, the failing run is a lemma, and the
condition under which the claim holds is proved:

- The caps for one number and for the whole service are passed by at most one less than the reservations in
  flight (`SendingCaps.SharedCapsUpToConcurrency`), and that bound is reached for every cap and every number of
  reservations (`SendingCaps.SharedCapsOvershoot`).
- A key of an idempotent create owns one delivery, and one more for each request for it that crashed with its row
  in the table; so exactly one if and only if there was none (`IdempotentCreate.OneDeliveryPerKey`).
- A window of the rate limiter lets at most its limit through as long as no transaction on it starts after its end
  (`RateLimit.AtMostLimitPerWindow`); one that does breaks it, for every limit (`RateLimit.OneLateCallBreaksTheLimit`).
- A new version is released with one effect, or refused, if it is one line or anything was released before
  (`ChangelogReleaseEffect.ReleaseEffect`). What is left is a version with a line feed in a changelog nothing was
  released from: it can succeed (`ChangelogTool.NewlineVersionBreaksTheEffect`), and then never has the one effect.
- A channel gets one logical message twice if and only if an escalation called providers for it while a call of it
  was in none of its attempts (`EscalationLoss.RepeatedExactly`). After a lost record the next escalation repeats a
  channel exactly when the lost send reached one that no attempt left on record names
  (`EscalationLoss.LostSendIsRepeated`), and always after a lost escalation (`EscalationLoss.LostEscalationIsRepeated`).
- A process that dies between saving the notification and its attempts leaves a right name exactly when the send
  failed (`EscalationLoss.TornStart`, `TornEscalation`; `TornResend` has the other cases).
- On the default provider chain escalation is refused with an exception for every unconfirmed message
  (`Escalation.DefaultChainRaises`), and a start with escalation on fails after its message has gone out
  (`Escalation.OnTheWayMessage.FinishStart`).
- A delivery gets at most as many rating requests as are under way for it at a time
  (`SendingRatings.RatingsUpToConcurrency`), and that bound is reached (`SendingRatings.RatingsReachConcurrency`).
- An erased delivery that had been started is left alone (`SendingErased.ErasedIsLeftAlone`). A start that read its
  copy before the erasure goes on, to an empty number, if and only if the delivery had never been started
  (`SendingErased.ErasedIsStartedIff`).
- The rate limiter raises only for a call that reads its count after the end of its window (`RateLimit.LostMeansLate`),
  and then it can (`RateLimit.LateReadIsLost`).
- A delivery marked delivered can be started exactly when it never was (`Lifecycle.DeliveredCanStart`).

## Model

| member | source | states |
|---|---|---|
| `Quotas.VerdictIsFirstBlock` | notifications/quotas.py:108-188 | a reservation passes exactly when no limit blocks it; a refusal is one that no earlier check of the documented order would have given |
| `Quotas.VerdictMeans` | notifications/quotas.py:108-188 | which refusal is raised, and when none is, as numbers of log rows: of the shop, to the number, of the service, since the start of the day or month, and resends of the delivery |
| `Quotas.OthersDoNotCount` | notifications/quotas.py:112-170 | a send of another shop to another number for another delivery brings on no refusal but the service's own |
| `Quotas.CountMeans` | notifications/quotas.py:143-175 | what the counts since a time and of a day count |
| `Quotas.CountMeansToo` | notifications/quotas.py:112-128 | what the counts of a calendar month and of resends count |
| `Quotas.LimitsAreTheShops` | notifications/quotas.py:59-72 | a shop's own limit wins; the trial limits are for the unverified and those without access, and no other |
| `Quotas.SinceCoversDay` | notifications/quotas.py:75-80 | counting from the start of the day or month covers every row of that day or month, also rows stamped later than now |
| `Quotas.AcceptedHasRoom` | notifications/quotas.py:108-188 | an accepted reservation finds every cap unreached on the very day and month its row will be counted in, and no trial shop sends to a risky number |
| `Quotas.LimitsWithoutAccess` | notifications/quotas.py:59-72 | once access is lost, a shop with or without a subscription has the trial limits unless it has its own, and keeps them as time passes |
| `Quotas.CountIsCardinality` | notifications/quotas.py:143-175 | a count is the number of distinct matching log rows |
| `Quotas.SendLog.Check` | notifications/quotas.py:108-188 | the sequence of raising reads returns the verdict |
| `Quotas.SendLog.ReserveSend` | notifications/quotas.py:191-213 | a refusal leaves the log alone, an acceptance appends exactly the reserved row |
| `Calendar.DayStart` | notifications/quotas.py:75-76 | midnight of the same day |
| `Calendar.DayStartOrders` | notifications/quotas.py:75-76 | "since the start of the day" is "not on an earlier day" |
| `Calendar.MonthIsUnique` | notifications/quotas.py:79-80 | months of the Gregorian calendar partition the days |
| `Calendar.FirstDayIsGregorian` | notifications/quotas.py:79-80 | a month begins on the ordinal of its first day in the Gregorian calendar |
| `Calendar.MonthStartOrders` | notifications/quotas.py:79-80 | "since the start of the month" is "not in an earlier month" |
| `Sending.RunFits` | deliveries/services.py:471-532 | over every run a request on its way to a commit holds its locks alone, nobody else holds any, and every reservation and log row belongs to its delivery's shop |
| `SendingOrigins.RunHasOrigins` | deliveries/services.py:471-656 | in every run each request stands where its own actions put it: a start saw the delivery unstarted twice, the second time locked, and carries the arrival time it was given; a resend is of a started delivery with a link; a rating request of one without, to a recipient who did not opt out; each asks for the number and risk its actions name or found |
| `SendingOrigins.ResendIsToItsNumber` | deliveries/services.py:613-627 | in every run a resend is reserved, checked and logged under the new number and its risk, or under the delivery's when there is no new one |
| `SendingOrigins.RunKeepsRequests` | notifications/quotas.py:207-213 | in every run a request's log row is what it asked for, and every provider call goes to the number in its log row |
| `SendingOrigins.CallsToOneNumber` | notifications/quotas.py:143-152 | with at most k reservations in flight, the calls to one number reserved on one day pass the cap by less than k |
| `SendingAlone.StartAlone` | deliveries/services.py:471-532 | an undisturbed start, for every state, copy and answer: exactly when it goes out, and all it writes and calls; nothing otherwise |
| `SendingAlone.ResendAlone` | deliveries/services.py:598-627 | the same of a resend: logged, saved and sent under the new number, if there is one |
| `SendingAlone.RatingAlone` | deliveries/services.py:630-656 | the same of a rating request |
| `SendingOnce.OneHolder` | deliveries/services.py:496-500 | two start requests never hold one delivery row |
| `SendingOnce.StartsAtMostOnce` | deliveries/services.py:471-547 | however many starts on however stale copies: at most one on-the-way notification, log row and provider call, and the notification exists exactly when the row does |
| `SendingOnce.RunKeepsOwnRows` | deliveries/services.py:496-532 | every provider call in any run, crashes included, has its own earlier log row |
| `SendingOnce.RunKeepsJobRows` | notifications/quotas.py:202-213 | in every run the log row of a request is one for its delivery and of its kind |
| `SendingOnce.OneStarter` | deliveries/services.py:496-500 | of all requests that ever ask to start a delivery at most one gets as far as its commit |
| `SendingOnce.CallsInheritCaps` | deliveries/services.py:613-656 | calls are never more than log rows, whatever they are counted by |
| `SendingOnce.LosersChangeNothing` | deliveries/services.py:483-505 | a request that lost the race, got no route or was refused never changed the database |
| `SendingOnce.WritersAreRecorded` | deliveries/services.py:496-532 | the record of who changed the database misses nobody |
| `SendingRatings.RatingsUpToConcurrency` | deliveries/services.py:630-656 | a delivery gets at most as many rating requests as are under way for it at a time; one at a time, one |
| `SendingRatings.EachTaskGivesARating` | deliveries/services.py:632-656 | any run that reaches a started delivery without one, with room for the messages, goes on to a rating request for each of any number of tasks that fire together |
| `SendingRatings.RatingsReachConcurrency` | deliveries/services.py:632-656 | from a single start on, for every number of tasks the caps of the day have room for: a run with no more than that many under way that gives as many requests |
| `SendingErased.ErasedIsLeftAlone` | deliveries/services.py:464-500 | in every run, after the erasure of a started delivery its token does not come back and no request that begins later gets as far as a reservation for it |
| `SendingErased.ErasedIsStartedIff` | deliveries/services.py:496-532 | after any run, a start that passed its first look before the erasure sends to an empty number and puts the erased row on the way if and only if the delivery was never started; otherwise the row stays as erased |
| `SendingErased.PurgeMeans` | deliveries/retention.py:158-179 | the erasure takes an unlocked row that is due, its recipient data and its token, and nothing else |
| `SendingErased.ErasedCanBeSent` | deliveries/retention.py:154-179 | a run of ten actions in which that happens |
| `SendingCaps.StepKeepsSum` | notifications/quotas.py:207-213 | rows plus matching reservations in flight grow only by a check that found room |
| `SendingCaps.CapHolds` | notifications/quotas.py:108-213 | with at most k matching reservations in flight at a time, any cap is passed by less than k, for arbitrary clock readings |
| `SendingCaps.ShopStaysWithinLimits` | notifications/quotas.py:152-170 | under every interleaving a shop's rows, and its provider calls, stay within its limits in every day and month |
| `SendingCaps.ResendsStayWithinCap` | notifications/quotas.py:112-128 | no delivery is resent more often than the cap, under every interleaving |
| `SendingCaps.SharedCapsUpToConcurrency` | notifications/quotas.py:143-188 | rows of a day, for the service and for one number, pass the cap by less than the number of reservations in flight; serial runs keep both exactly |
| `SendingCaps.SharedCapsUpToShops` | notifications/quotas.py:202-210 | with no assumption on timing they pass it by less than the number of shops |
| `SendingCaps.SharedCapsOvershoot` | notifications/quotas.py:143-188 | those bounds are reached for every cap and every number of reservations in flight and of shops |
| `TimeWindow.ClampToWindow` | common/timewindow.py:33-43 | the earliest time from the given one on between 08:00 and 22:00 |
| `TimeWindow.ClampMeans` | common/timewindow.py:33-48 | in hours of the day: unchanged from eight to ten in the evening, else eight o'clock of that or the next day; the rating half an hour after arrival |
| `TimeWindow.ClampIdempotent` | common/timewindow.py:33-43 | clamping twice is clamping once, and only times outside the window move |
| `TimeWindow.ClampMonotone` | common/timewindow.py:33-43 | a later time is never clamped to an earlier one |
| `TimeWindow.RatingFollowsEta` | common/timewindow.py:46-48 | the rating goes out half an hour to ten and a half hours after arrival, in the order of arrivals |
| `Lifecycle.RunIsSound` | deliveries/services.py:464-547 | in every run: on the way means one notification, a start time and an arrival time; a started delivery has a rating task for its current arrival; one rating request at most, at most five minutes early; a token exactly while started and not erased |
| `Lifecycle.StartedIsOneWay` | deliveries/services.py:464-573 | once the recipient was told, the status only goes from on the way to delivered, and start, arrival and delivery times of a delivered row are final |
| `Lifecycle.DeliveredCanStart` | deliveries/services.py:464-468 | a delivered row can be started exactly when it never was |
| `Lifecycle.PurgedIsInert` | deliveries/views.py:43-46 | taken one operation at a time: after erasure no view, endpoint, link, task or further purge changes the row, restores it or sends for it |
| `Lifecycle.OnlyFinalIsPurged` | deliveries/retention.py:158-179 | only a deleted or delivered row is erased, and then name, phone, address, coordinates and token all go |
| `Lifecycle.TaskIsNotDropped` | tasks/views.py:38-44 | after any edits the task for the current arrival exists and the guard lets it through, so the request goes out |
| `Lifecycle.StartMeans` | deliveries/services.py:464-547 | when a start changes the delivery, and every field it changes |
| `Lifecycle.EditMeans` | deliveries/services.py:90-153 | when an edit changes the delivery, and every field it changes |
| `Lifecycle.DeliverMeans` | deliveries/services.py:562-573 | delivered and confirmed once, with the time, the latter through an unexpired link |
| `Lifecycle.MarksMean` | deliveries/services.py:550-595 | ready, deleted and restored, on the fields of the row |
| `Lifecycle.ResendMeans` | deliveries/services.py:598-627 | when a resend goes out, and to which number |
| `Lifecycle.RatingMeans` | deliveries/services.py:630-656 | the one rating request goes out exactly if there was none, with a link, within quota, not to who opted out, at most five minutes early |
| `Lifecycle.PurgeMeans` | deliveries/retention.py:70-79 | what the purge makes of a delivery, on its dates |
| `Lifecycle.DeliveryRecord.StartDelivery` | deliveries/services.py:471-547 | the new state of a start, or none of its changes |
| `Lifecycle.DeliveryRecord.UpdateDelivery` | deliveries/services.py:90-172 | which fields an edit changes, their names, when it reschedules the rating, and the exception for a delivered row |
| `Lifecycle.ChangedFieldsTellAll` | deliveries/services.py:114-142 | an edit changes the row only if it names a field |
| `Lifecycle.DeliveryRecord.MarkReady` | deliveries/services.py:550-559 | new becomes ready, anything else stays |
| `Lifecycle.DeliveryRecord.MarkDelivered` | deliveries/services.py:562-573 | delivered once, with its time |
| `Lifecycle.DeliveryRecord.MarkReceived` | tracking/views.py:140-148 | the recipient's confirmation counts only through an unexpired link |
| `Lifecycle.DeliveryRecord.SoftDelete` | deliveries/services.py:576-582 | deleted once |
| `Lifecycle.DeliveryRecord.Undelete` | deliveries/services.py:585-595 | restored only if deleted and not erased |
| `Lifecycle.DeliveryRecord.ResendOnTheWay` | deliveries/services.py:598-627 | a resend changes at most the number, and nothing without a notification, a token or quota |
| `Lifecycle.DeliveryRecord.SendRating` | tasks/views.py:34-44 | the early-task guard and the conditions of the rating request |
| `Receipts.OfferIsJoin` | notifications/webhooks.py:52-66 | the branches of applying a report are one join: queued and sent below failed below delivered below read |
| `Receipts.FinalIsHighest` | notifications/webhooks.py:41-66 | after any reports the status is the highest of the old one and the reported ones |
| `Receipts.FinalMeans` | notifications/webhooks.py:41-66 | after any reports: read if one says seen, else delivered if one says so, else failed if one says undeliverable, rejected or expired, else as before; nothing is taken back |
| `Receipts.FinalIgnoresOrder` | notifications/webhooks.py:52-66 | the same reports in another order, or repeated, leave the same status |
| `Receipts.RowsAreIndependent` | notifications/webhooks.py:101-110 | each notification ends with the status its own reports give it, found by message id, newest first |
| `Receipts.TableIgnoresOrder` | notifications/webhooks.py:101-110 | the same set of reports leaves the same table |
| `Receipts.ToldStrictlyIncreasing` | notifications/webhooks.py:77-110 | what a merchant hears of one notification strictly increases and ends at its status |
| `Receipts.Notifications.ApplyTo` | notifications/webhooks.py:52-66 | saves and answers true exactly when the status changes |
| `Receipts.Notifications.InfobipReports` | notifications/webhooks.py:91-112 | the loop over the results updates the table and tells the merchant as specified |
| `Chains.TriesStopAtSuccess` | integrations/chained.py:19-39 | a send tries a prefix of the chain, one attempt a provider, stopping at the first success |
| `Chains.SendText` | integrations/chained.py:19-39 | the loop returns those attempts and the winner's channel and id, or failure |
| `Chains.DefaultChainPaths` | integrations/providers.py:35-54 | each provider of the default chain is in its fixed place exactly when its setting wants it |
| `EscalationLaws.DefaultChainMeans` | integrations/providers.py:35-54 | which classes the default chain holds for which settings, and in which order |
| `EscalationLaws.SendMeans` | integrations/chained.py:19-39 | a send succeeds exactly if a provider accepts, tries up to the first that does, and carries its channel and message id |
| `EscalationLaws.ChannelMeans` | integrations/chained.py:42-54 | the channel of an attempt: the answer's, else the class's own, else its name without "Provider" in lower case |
| `Chains.DefaultChainChannels` | integrations/providers.py:35-65 | for all settings the default chain has one channel each, but always a provider whose channel cannot be read |
| `Chains.UntriedMembers` | deliveries/services.py:381-384 | the untried providers are those of the chain whose channel has no attempt |
| `Chains.UntriedShrinks` | deliveries/services.py:381-384 | trying more leaves what is left of what was left |
| `EscalationLaws.ArrivedIsLeftAlone` | deliveries/services.py:435-436 | a message reported delivered or read is never escalated |
| `EscalationLaws.ArrivedIsQuiet` | deliveries/services.py:424-455 | once a report has confirmed a message, no run of reports, tasks and starts calls a provider again, until a resend |
| `EscalationLaws.EscalationCallsIff` | deliveries/services.py:424-442 | an escalation calls a provider exactly with the flag on, a message not confirmed, every class with a channel, a link, and a channel of the chain without an attempt |
| `EscalationLaws.RecordedMeans` | deliveries/services.py:295-367 | the first success decides status, channel and message id, and all attempts are kept in order; failed if there is none |
| `EscalationLaws.RecordedOneMeans` | deliveries/services.py:304-314 | a result without attempts is recorded as its only attempt |
| `EscalationLaws.AppendedMeans` | deliveries/services.py:403-451 | an accepted escalation names the message; attempts are added behind the old ones |
| `EscalationLaws.StartMeans` | deliveries/services.py:516-532 | after a start the message is sent exactly if a provider of the chain accepted it, else failed |
| `EscalationLaws.ResendMeans` | deliveries/services.py:624-627 | a resend is a new message, queued, then sent or failed the same way |
| `EscalationLaws.ReceiptMeans` | notifications/webhooks.py:101-110 | a report moves the message whose id it names, and no other |
| `Escalation.RunIsSound` | deliveries/services.py:295-455 | in every run, wherever processes die: no channel gets a logical message twice unless an escalation acted on it while a call of it was in none of its attempts; attempts are numbered 1..n on distinct channels; the notification names the last success or nothing unless a process died between saving the two |
| `Escalation.LivingRunIsSound` | deliveries/services.py:295-455 | where none dies after a provider call there are no exceptions |
| `Escalation.EscalationShrinks` | deliveries/services.py:424-455 | an escalation changes nothing, or calls the first untried providers, at least one, and leaves exactly the others untried |
| `Escalation.EscalationIsBounded` | deliveries/services.py:424-455 | in every run one logical message is sent at most once per provider of the chain, and once more for each send of it whose record was lost |
| `EscalationLoss.RepeatedExactly` | deliveries/services.py:295-455 | for every message of every run: some channel got it twice if and only if an escalation acted on it while a call of it was in none of its attempts |
| `EscalationLoss.LostSendIsRepeated` | deliveries/services.py:338-371 | after any run, for a start or resend that died after its provider call: the next escalation repeats a channel if and only if escalation is on, every channel can be read, and the lost send reached a channel no attempt left on record names |
| `EscalationLoss.LostStartIsRepeated` | deliveries/services.py:338-371 | after a lost start, the next escalation repeats a channel if and only if it calls a provider |
| `EscalationLoss.LostEscalationIsRepeated` | deliveries/services.py:438-444 | after an escalation whose record was lost the same providers are left, and the next escalation repeats a channel |
| `EscalationLoss.LostRecordRepeatsAChannel` | deliveries/services.py:345-367 | a run of two events hands one message to one channel twice |
| `EscalationLoss.TornStart` | deliveries/services.py:362-367 | a start that died between saving the notification and its attempts left a right name if and only if every provider refused |
| `EscalationLoss.TornResend` | deliveries/services.py:362-367 | the same for a resend; with the old attempts still there, if and only if its winner, or nobody, is what the last success among them names |
| `EscalationLoss.TornEscalation` | deliveries/services.py:443-451 | an escalation that died there, from a right name, left a right one if and only if it failed |
| `EscalationLoss.TornStartMisnames` | deliveries/services.py:362-367 | a run of one event leaves a notification that names a success no attempt records |
| `Escalation.DefaultChainRaises` | deliveries/services.py:381-384 | with any settings of the default chain an enabled escalation of an unconfirmed message raises and changes nothing |
| `Escalation.OnTheWayMessage.RecordAttempts` | deliveries/services.py:295-326 | old attempts are replaced; a result without attempts is mirrored as one |
| `Escalation.OnTheWayMessage.AppendAttempts` | deliveries/services.py:403-421 | attempts are added after the highest number so far |
| `Escalation.OnTheWayMessage.RecordResult` | deliveries/services.py:347-367 | status, channel, message id, time of sending and attempts after the answer of any provider, with attempts or without |
| `Escalation.OnTheWayMessage.SendAndRecord` | deliveries/services.py:338-371 | the same after a send down a chain, and which channels were called |
| `Chains.ChainChannelPaths` | integrations/providers.py:62-65 | the loop pairs each provider with its channel, or raises at the first class without one |
| `Chains.UntriedChainPaths` | deliveries/services.py:381-384 | the loop keeps the providers whose channel has no attempt, or raises |
| `Escalation.OnTheWayMessage.FinishStart` | deliveries/services.py:530-543 | the message goes out and is recorded; then the start raises exactly when escalation is on and a channel cannot be read, and schedules a check exactly when a provider is left |
| `Escalation.OnTheWayMessage.EscalateDelivery` | deliveries/services.py:424-455 | the new state; the exception exactly for an unconfirmed message with escalation on and a channel that cannot be read; a confirmed message is left alone; accepted exactly when a provider accepted, and then the next check is scheduled if a provider is left |
| `Escalation.OnTheWayMessage.Resend` | deliveries/services.py:598-627 | a resend is a new logical message with attempts of its own |
| `Retention.ErasedIsNotDue` | deliveries/retention.py:70-111 | what was erased is not due again, and nothing else stops being due |
| `Retention.RunsAddUp` | deliveries/retention.py:118-194 | runs cut short anywhere, once nothing is due, leave the data of one erasure at the last cutoff, but for stamps, and their counts add up to its counts |
| `Retention.PartsAreOne` | deliveries/retention.py:118-194 | any runs together are one erasure of part of what is due |
| `Retention.LockedErasesOnlyDue` | deliveries/retention.py:154-179 | whatever happened since the ids were read, only rows due under the lock are erased, none active, with exactly their tokens |
| `Retention.JobErasesOnlyDue` | deliveries/retention.py:154-179 | under any interference, on any stale ids, every row ever erased was due and final at its lock; if nothing else unstamps rows, none is erased twice and the count is right |
| `Retention.Store.Ids` | deliveries/retention.py:114-115 | the lowest ids, as many as the batch allows |
| `Retention.Store.EraseDeliveries` | deliveries/retention.py:154-179 | the first loop erases due rows and counts them and their tokens, all of them unless time ran out |
| `Retention.Store.ErasePhones` | deliveries/retention.py:181-185 | the second loop, for phones in the send log |
| `Retention.Store.EraseGeocodes` | deliveries/retention.py:187-191 | the third loop, for cached addresses |
| `Retention.Store.Purge` | deliveries/retention.py:118-194 | for every batch size a finished run erases, on the rows' own dates, exactly what is past the limit, counts what it erased as the dry run does, and leaves nothing due; one cut short erased part of it, a row for every look at the clock but two |
| `Retention.EraseAllMeans` | deliveries/retention.py:66-79 | a row is erased exactly if it was not yet, and was deleted before the limit, or is not deleted but delivered and its first known time among delivery, arrival, start and creation is before it; numbers and cached addresses by their creation |
| `Retention.EraseSomeMeans` | deliveries/retention.py:154-191 | a run cut short leaves each row as it was or as a whole run would |
| `Retention.StaleMeans` | deliveries/retention.py:82-89 | which deliveries are counted as active but untouched, and kept |
| `RetentionQuotas.SameVerdict` | notifications/quotas.py:112-175 | emptied phones of earlier days change no verdict |
| `RetentionQuotas.RunsAgree` | notifications/quotas.py:191-213 | whole sequences of reservations get the same answers from a purged log |
| `RetentionQuotas.PurgeIsInvisibleToQuotas` | deliveries/retention.py:92-111 | later reservations cannot tell whether the purge ran exactly when data is kept for a day; every accepted configuration does |
| `IdempotentCreate.RunKeepsInv` | deliveries/api.py:442-480 | in every interleaving, crashes included, keys point to rows made for them, answers are what the key points to, and every row belongs to a key or to the answered, running or crashed request that made it |
| `IdempotentCreate.OneDeliveryPerKey` | deliveries/api.py:442-480 | once no request for an answered key runs, it owns the answered delivery and one more for each request for it that crashed with its row; exactly one if and only if there was none |
| `IdempotentCreate.AnswersAgree` | deliveries/api.py:443-450 | in every run, all answers for a key carry the delivery the key points to |
| `IdempotentCreate.OwnDeliveryWithoutKey` | deliveries/api.py:442-480 | in every run a request without a key has a delivery of its own |
| `IdempotentCreate.KeysNeverDangle` | deliveries/api.py:465-478 | at no moment of any run does a key row point to a deleted delivery or to one made for another key |
| `IdempotentCreate.CrashLeavesASecondDelivery` | deliveries/api.py:452-470 | a run with one crash between the two writes and an answered retry: one such request, two deliveries |
| `IdempotentCreate.CreateAlone` | deliveries/api.py:442-480 | undisturbed, a known key is answered with no row made; a new one gets one row, and is inserted |
| `IdempotentCreate.LoserAlone` | deliveries/api.py:463-478 | who finds its key taken deletes its own row and answers with the other delivery |
| `IdempotentCreate.Store.Post` | deliveries/api.py:442-480 | with other requests served between look-up and insert, the answer is what the key points to and a losing row is gone |
| `RateLimit.WindowKey` | common/ratelimit.py:28-34 | the window holds the time and ends after it |
| `RateLimit.TableSteps` | common/ratelimit.py:41-47 | a call adds one to its own row and no other; the sweep, only after a new row, takes exactly what expired before the call's reading |
| `RateLimit.SweepSparesLiveWindows` | common/ratelimit.py:46-47 | deleting expired rows removes no running window of any scope or length |
| `RateLimit.TableAgreesWithLog` | common/ratelimit.py:37-49 | in every run, with clocks read however long before, the swept table agrees with the log of all hits on every window whose transactions were on time |
| `RateLimit.ExceededReadsTheLog` | common/ratelimit.py:52-56 | read before the end of its window, "exceeded" means the log holds at least the limit in it, after any run |
| `RateLimit.AtMostLimitPerWindow` | common/ratelimit.py:37-49 | in every interleaving at most the limit is allowed in a window none of whose transactions starts after its end |
| `RateLimit.AtMostLimitWhenPrompt` | common/ratelimit.py:39-41 | when every call reads the clock as its transaction starts, all windows are on time and bounded |
| `RateLimit.AtMostTwiceLimit` | common/ratelimit.py:37-49 | any interval of one window length allows at most twice the limit, its two windows being on time |
| `RateLimit.OneLateCallBreaksTheLimit` | common/ratelimit.py:39-47 | for every limit there is a run in which one transaction is late and one call more than the limit is allowed |
| `RateLimit.LostMeansLate` | common/ratelimit.py:47-48 | after any run a call finds its row gone only past the end of its window, and only if some call read a clock after that end |
| `RateLimit.LateReadIsLost` | common/ratelimit.py:46-48 | a run in which a call counts on time, is overtaken by the sweep of the next window, and raises |
| `RateLimit.Limiter.TakeHit` | common/ratelimit.py:37-49 | one call counts, sweeps expired rows exactly if its window is new, and answers by the log |
| `RateLimit.Limiter.IsExceeded` | common/ratelimit.py:52-56 | reads the log and counts nothing |
| `Billing.StatusOf` | billing/services.py:36-53 | no status of the payment provider leads back to the trial |
| `Billing.StatusMeans` | billing/services.py:36-48 | which word of the payment provider makes a shop active, past due or canceled, and which leave it alone |
| `Billing.ApplyMeans` | billing/services.py:309-356 | when a membership event is dropped, and every field of the row after one that is not |
| `Billing.HandleMeans` | billing/services.py:432-436 | what payments, checkouts and trial overrides change |
| `Billing.TrialEndMeans` | billing/services.py:140-149 | the trial ends where staff put its end, else its days after registration or the start of billing, the later |
| `Billing.AccessMeans` | billing/services.py:157-170 | who has access, by status and dates |
| `Billing.ActiveHasAccess` | billing/services.py:164-165 | after an active membership event a shop has access, whenever its trial ended |
| `Billing.PastDueSinceIsSpellStart` | billing/services.py:338-350 | the past-due time is the first event of the current uninterrupted spell |
| `Billing.SubscriptionInvariant` | billing/services.py:309-356 | active means activated and not past due; canceled means a cancel time; beyond the trial there is a membership |
| `Billing.OneWay` | billing/services.py:309-356 | nothing leads back to the trial, and the activation time never changes once set |
| `Billing.ActivatedAtFirstActivation` | billing/services.py:338-343 | the activation time is that of the first event that made the shop active |
| `Billing.RedeliveryChangesNothing` | billing/services.py:309-356 | a membership delivered twice is the membership delivered once |
| `Billing.OldMembershipIsIgnored` | billing/services.py:322-328 | an active shop is not disturbed by another membership that is not active |
| `Billing.TrialDaysCoverTheTrial` | billing/services.py:173-176 | days are left exactly while the trial runs, and cover the rest of it and less than a day more |
| `Billing.CheckoutHonoursTheTrial` | billing/services.py:229-244 | a checkout never charges before the trial ends and gives away less than a day |
| `Billing.AccessUntilTheTrialEnds` | billing/services.py:157-176 | with trial days left there is access, with or without a subscription, unless a payment is past due |
| `Billing.AccessOnlyExpires` | billing/services.py:157-170 | between events lost access stays lost, with or without a subscription |
| `Billing.GraceRunsFromSpellStart` | billing/services.py:165-168 | a past-due shop has access exactly until the grace after the first event of the spell |
| `Billing.SubscriptionRow.ApplyMembership` | billing/services.py:309-356 | the new row, or the old one when the event is ignored |
| `Billing.SubscriptionRow.LinkPayment` | billing/services.py:432-436 | a payment links its membership only where none is known |
| `Changelog.FoldKeepsShape` | changelog.py:72-117 | at every line the lists read so far have known sections, one-line entries, translations behind all but the last entry, and Unreleased only first |
| `Changelog.ParseLoop` | changelog.py:58-133 | the loop computes the parse, with the line number of the error |
| `ChangelogRoundTrip.ParseInvertsRender` | changelog.py:58-133 | writing a well-formed list in the documented format, after any free text, and parsing it gives the list back |
| `ChangelogRoundTrip.ParseIsSound` | changelog.py:58-133 | every accepted text gives a well-formed list: versions strictly decreasing, dates not increasing, no empty section, all translated |
| `ChangelogRoundTrip.AcceptedExactly` | changelog.py:10-17 | the parser's results are exactly the well-formed lists |
| `ChangelogTexts.AcceptedTexts` | changelog.py:58-133 | for every text and list: the parser gives the list if and only if below the first heading stand, blank lines apart, exactly the lines of that well-formed list, and then links only |
| `ChangelogTexts.EnglishExactly` | changelog.py:33 | which lines are English entries |
| `ChangelogTexts.TranslationExactly` | changelog.py:34 | which lines are translations |
| `ChangelogTexts.SectionExactly` | changelog.py:32 | which lines are section headings |
| `ChangelogTexts.HeadingExactly` | changelog.py:31 | which lines are version headings |
| `ChangelogTexts.LinkExactly` | changelog.py:35 | which lines are links |
| `ChangelogNumbers.VersionMeans` | changelog.py:31 | a version is three numbers with dots between |
| `ChangelogNumbers.ToNatOfDec` | changelog.py:54-55 | reading a number written in decimal gives the number |
| `ChangelogNumbers.KeyMeans` | changelog.py:54-55 | the key of a version is its three numbers |
| `ChangelogNumbers.KeyAboveMeans` | changelog.py:173-174 | a version is above another exactly if its numbers come after, the first before the second before the third |
| `ChangelogNumbers.DateMeans` | changelog.py:86-89 | a text of the shape of a date is one exactly if the calendar has the day |
| `ChangelogNumbers.DateOrderMeans` | changelog.py:129 | dates compare as texts the way the days do |
| `ChangelogNumbers.NewerThanMeans` | changelog.py:128-132 | a release is newer exactly if its numbers come after and its day is not earlier |
| `ChangelogErrors.ErrorMeans` | changelog.py:58-133 | an error carries the number of the first line at fault, all lines above being fine, or none when every line is fine and the list is not |
| `ChangelogErrors.RefusalMeans` | changelog.py:72-117 | for each reason of a refused line, exactly when it is given |
| `ChangelogErrors.ProblemMeans` | changelog.py:118-132 | for each reason of a refused list, when it is given |
| `ChangelogFormat.LinkLinesAreLinks` | changelog.py:144-155 | every rebuilt link line is one the parser takes as a link |
| `ChangelogErrors.LinkLinesMean` | changelog.py:144-155 | the text of the links: from the latest version to the head, from each older version to the newer one, and the tag of the oldest |
| `ChangelogTool.LinkLinesLoop` | changelog.py:144-155 | the loop over adjacent versions builds the link block |
| `ChangelogTool.WithLinksLoop` | changelog.py:158-163 | the pop loop replaces the trailing block |
| `ChangelogRelease.WithLinksKeepsMeaning` | changelog.py:158-163 | rebuilding the link block keeps the parsed meaning |
| `ChangelogRelease.WithLinksIdempotent` | changelog.py:158-163 | rebuilding it twice is rebuilding it once |
| `ChangelogErrors.WithLinksMeans` | changelog.py:158-163 | the lines without what is blank or a link at their end, a blank line, the links |
| `ChangelogErrors.ReleaseWrites` | changelog.py:184-189 | the text a release writes: one replacement, then the links |
| `ChangelogErrors.ReleaseRefusal` | changelog.py:170-189 | why a release is refused, in the order of its checks |
| `ChangelogReleaseEffect.ReleaseEffect` | changelog.py:166-189 | for every text, version and day: an unreadable text is refused, a known version leaves the text alone, a new one that is one line, or comes after any release, succeeds exactly under conditions read off the text, version and day (among them that the heading's text ends no line of the free text) and then has exactly one effect on the meaning; any other success never has it |
| `ChangelogReleaseEffect.RerunIsIdentity` | changelog.py:166-173 | releasing the same version again, on any day, changes nothing, unless it has a line feed in it, when the second run is refused |
| `ChangelogReleaseEffect.ReleaseLeavesLinksInSync` | changelog.py:187-189 | after a release the link block is the one that would be rebuilt |
| `ChangelogTool.ReleaseCommand` | changelog.py:166-189 | the command with its loops computes the release |
| `ChangelogTool.NewlineVersionBreaksTheEffect` | changelog.py:166-189 | a version with a line feed, nothing released yet: the release adds two versions |
| `ChangelogTool.NotesCommand` | changelog.py:192-202 | the loop over the sections builds the notes, or refuses a version without entries |
| `ChangelogTool.NotesReadBack` | changelog.py:192-202 | who reads the notes back finds exactly the English text of the version's entries, each under the heading of its section |
| `ChangelogErrors.NotesBlock` | changelog.py:196-200 | the lines of a section in the notes: heading, English lines, a blank line |

## Left out

- Lifecycle.DeliveryRecord.StartDelivery: does not model `eta_source`; the stale copy and the locked re-check are the steps of `Sending`.
- Lifecycle.DeliveryRecord.UpdateDelivery: does not model description, language, city and `eta_source`, nor the trimming of the address.
- Lifecycle.DeliveryRecord.ResendOnTheWay: changes the row only; the new logical message is `Escalation.OnTheWayMessage.Resend`.
- Escalation.RunIsSound: is about chains; a single `MESSAGING_PROVIDER` in place of the chain is covered by `Escalation.OnTheWayMessage.RecordResult`. It asks for a channel of its own for each provider.
- EscalationLoss.TornStart: asks that every channel have a name, as do TornResend and TornEscalation; a provider class called just `Provider`, declaring no channel, would have none.
- Sending.RunFits: concurrent edits are one arbitrary change of a row's status and number; an erasure takes one delivery at a time, and old numbers in the send log are erased in `RetentionQuotas` only.
- Retention.Store.Purge: runs without interference; interference between reading ids and the lock is `Retention.JobErasesOnlyDue`.
- Changelog.ParseLoop: splits lines on the line feed only and reads digits as ASCII; where `int` or `date.fromisoformat` would take other spellings the model refuses at once, while the script refuses at the heading. Errors have kinds, not wording.
- The order in which the database grants locks, deadlocks, and reads of uncommitted data.
- Daylight saving time: days are 24 hours.
- Two rate limiter keys with one sha256 value.
- Hard deletion of shops and deliveries, edits by staff, and finding the shop a payment event belongs to.
- Phone normalisation, text cleaning, redaction, signatures and API keys.
- HTTP, templates, forms, i18n texts, settings, middleware, migrations, and the providers themselves.
- Payments, refunds and monthly reports of billing, usage meters, the geocode cache and the stepper.
