# stattii: a Dafny model

stattii asks the people responsible for an event whether it takes place, calls it off when
nobody answers, and makes sure that everybody concerned hears about it. This project models
the parts of it that are hard to get right and proves what they promise:

- **Delivery.** A pass selects due outbox rows under the lock, sends with the lock free and
  books the results under the lock again. `Protocol` is the step system of any number of
  overlapping passes, with every other operation, the operator's retry and pruning running in
  between; `ProtocolResults` and `Overtaking` hold what follows in every interleaving.
- **The confirmation cycle.** `Transitions`, `Ticks`, `Delivery` and `CalendarSync` say what each
  operation does to the state; the class `Services.Service` does it step by step and is proved
  equal to them. `Operations.Apply` is one locked section. `Actions` breaks every operation into
  small guarded actions and `Coverage` proves that there is nothing else in it, so an
  invariant of the actions is an invariant of the program. On top of that come the delivery
  record (`Record`), the fan-out and its alarms (`Telling`, `Recipients`), the confirmation cycle and the
  dead-man switch (`Cycles`), the second ask (`Nudging`), bounded liveness (`Silence`), the calendar sync
  (`SyncResults`) and what keeps its events from being deleted (`Deletion`).
- **iCalendar.** `Civil` is the Gregorian calendar as day numbers. `RuleParse` reads a rule,
  `Recurrence` says what it means, `RecurrenceResults` proves facts about it, `Expansion` and
  `FeedExpansion` are the loops that spend from the enumeration budget. `IcsText` prints,
  `IcsParse` parses, `IcsRoundTrip` joins the two. `FeedImport` goes from the text of a foreign
  feed to its occurrences, `OccurrenceKeys` and `FeedSync` go from there to the stored events.
- **The limiter and the redacted view.** `Limiter` refines token buckets that are never swept;
  `Redaction` is the trip of a channel list through a view, an edit and a write.

The state is one value, `Core.State`; the class's fields are that value, and each method's
contract gives its whole new state. The audit trail is part of the state and serves as the
history in the statements about cycles.

## Findings

- `Config.validate` says it rejects combinations "that would silently do nothing". It accepts
  configurations with a nudge lead under which no run ever nudges. `Nudging.AcceptedNudgesIff`
  says which accepted ones nudge in some run: exactly those whose nudge lead is positive and
  whose reminder lead exceeds the deadline lead by more than two hours. Both hours are the
  confirmation grace: one after the ask, one before the deadline. `Nudging.AcceptedYetNeverNudges`
  gives one configuration for each half: leads of 24 h (deadline), 25 h and a nanosecond (nudge)
  and 26 h (reminder); and of -10 h, -5 h and 48 h, where the pass returns at once because the
  nudge lead is not positive.
- An event that starts within the first second of year 1 has a start, but its printed DTSTART is
  the zero time, so the parser lists it as skipped (`IcsRoundTrip.FirstSecondStartIsSkipped`). An
  end there is taken as missing and comes back as the start (`IcsRoundTrip.FirstSecondEndIsLost`).
  `IcsRoundTrip.EveryEventReadBack` has the exact condition: every event comes back as it was
  exactly when each is `StartKept` and `EndKept`, that is, when no start and no end lies in that second.
- The comment above `DeleteEvent` (internal/core/delete.go:57-59) says that anything imported may be
  deleted once the import is switched off. The code never asks whether it is, and the repository's
  own test wants it so: internal/core/delete_test.go:331-336 clears the calendar source, says that
  "the row stays the tombstone", and fails with "clearing calendar_source made the imported
  occurrence deletable" unless the deletion is refused. It is the comment that is stale.
  `Deletion.ImportOffStillRefuses` is a reachable state with the import off where an event that is over
  and one that is cancelled are both refused. `Deletion.ImportedDeletedIff` says when an imported event
  is deleted, under any configuration: exactly when the feed has dropped it, nobody cancelled it, it
  is over, and no notice of it is on its way. `Deletion.NoSyncNoDeletion` draws the consequence:
  without a sync an unmarked event is never deletable.

## Model

| member | source | states |
|---|---|---|
| Services.NewService | internal/core/service.go:61-161 | a configuration gets a service exactly when it is valid with its defaults filled in; that service starts from the empty state |
| Services.Service.constructor | internal/core/service.go:78-101 | a new service starts from the empty state, with unset configuration fields at their defaults |
| Services.Service.Enqueue | internal/core/outbox.go:16-22 | one row is appended with a fresh id, due at once |
| Services.Service.EnqueueToPerson | internal/core/outbox.go:28-46 | one row per usable channel and the ids of exactly those rows, or one skip on record |
| Services.Service.FireWebhooks | internal/core/outbox.go:64-91 | one row per webhook subscribed to the event, in no transaction |
| Services.Service.NotifyAdmin | internal/core/outbox.go:115-124 | the page is queued for the administrator, or its absence is put on record |
| Services.Service.AssigneesOf | internal/core/core.go:348-358 | the stored people assigned to the event, in assignment order |
| Services.Service.EnqueueGuests | internal/core/service.go:494-506 | one mail per distinct folded guest address, to the first guest who left it |
| Services.Service.FanOut | internal/core/service.go:474-511 | all rows of a propagation carry one fresh transaction, which the event remembers with their number |
| Services.Service.AlarmIfNobodyTold | internal/core/service.go:518-526 | an empty fan-out is put on record and paged unless the caller pages itself |
| Services.Service.Create | internal/core/service.go:249-267 | the event starts scheduled, in a fresh cycle, under a fresh id |
| Services.Service.Confirm | internal/core/service.go:310-331 | a cancelled event refuses, a scheduled one becomes confirmed, an answer is kept either way |
| Services.Service.Cancel | internal/core/service.go:361-407 | the flip, the answer, the fan-out, the webhooks and the alarm, in that order; twice is refused |
| Services.Service.Move | internal/core/service.go:419-462 | a bad interval and a cancelled event are refused; otherwise new times, fresh cycle, fan-out |
| Services.Service.Reinstate | internal/core/service.go:271-298 | only a cancelled event comes back, scheduled, in a fresh cycle, with a fan-out |
| Services.Service.RemindEvent | internal/core/outbox.go:312-378 | the ask, the unreachable warning and the broken-channel page for one event |
| Services.Service.TickReminders | internal/core/outbox.go:312-378 | the reminder pass visits every event in turn |
| Services.Service.AnsweredSince | internal/core/outbox.go:461-468 | an answer counts from the ask of this cycle on |
| Services.Service.NudgeEvent | internal/core/outbox.go:417-456 | the second ask goes once, in its window, to the reachable who did not answer |
| Services.Service.TickNudges | internal/core/outbox.go:417-456 | the nudge pass visits every event in turn, or none when nudging is off |
| Services.Service.DeadlineEvent | internal/core/outbox.go:470-535 | when the deadline acts, and whether it cancels or only pages |
| Services.Service.TickDeadlines | internal/core/outbox.go:470-535 | the deadline pass visits every event in turn |
| Services.Service.TakeIfDue | internal/core/outbox.go:595-611 | a due row is taken unless an earlier pass is sending to its recipient |
| Services.Service.SelectDue | internal/core/outbox.go:568-612 | the selection loop escalates the stuck rows and takes exactly the pickable ones |
| Services.Service.CollectOutbox | internal/core/outbox.go:568-617 | selection, then one page per stuck row |
| Services.Service.BookResult | internal/core/outbox.go:684-727 | what one returned send does to its row, unless it is gone, delivered or re-armed |
| Services.Service.RecordDeliveries | internal/core/outbox.go:670-731 | a whole pass is booked at the later of its own clock and the clock after the sends |
| Services.Service.RetryOutbox | internal/core/views.go:227-251 | an undelivered row is untried and due again; a send that is out is marked as overtaken |
| Services.Service.PruneOutbox | internal/core/outbox.go:283-310 | only delivered rows past retention, of no current event, are dropped |
| Services.Service.Tick | internal/core/outbox.go:244-274 | the event passes, the selection and the pruning of one tick, in that order |
| Services.Service.EnqueueTest | internal/core/views.go:281-304 | the test rows are queued and exactly those collected, or the person is refused |
| Services.Service.Propagation | internal/core/outbox.go:169-210 | the status of the last transaction, its rows counted one by one and listed with webhook targets cut |
| Services.Service.SyncOccurrence | internal/core/import.go:176-244 | one occurrence creates, moves, quietly updates or leaves its event |
| Services.Service.SweepVanished | internal/core/import.go:246-272 | missing live events are marked and listed; an empty feed draws no conclusion |
| Services.Service.AskVanished | internal/core/import.go:330-368 | the reachable assignees of vanished events are asked, and counted |
| Services.Service.SyncCalendar | internal/core/import.go:163-316 | the whole sync, with one page for what is gone and one for silent moves |
| Services.Service.DropWhere | internal/core/delete.go:25-36 | the rows the predicate does not pick, in order, and how many went |
| Services.Service.FanOutInFlight | internal/core/delete.go:102-113 | how many rows of the last transaction are queued or retrying |
| Services.Service.Delete | internal/core/delete.go:60-94 | deletion is refused while the event is on, imported or still being told about |
| Delivery.ScanIsSelect | internal/core/outbox.go:568-612 | the loop's own bookkeeping of recipients ends in exactly: every due row whose recipient no earlier pass serves |
| Delivery.ScanMarks | internal/core/outbox.go:605-607 | the marks the loop sets one by one are those of all its attempts |
| Rows.RowBookAll | internal/core/outbox.go:684-727 | booking a pass changes the rows of its own attempts only |
| Rows.BookAllSendingTo | internal/core/outbox.go:686-691 | booking a pass takes back exactly the recipient marks the pass has set |
| Rows.RowPrune | internal/core/outbox.go:283-310 | pruning removes exactly the prunable rows and keeps queue order |
| Coverage.ApplyLeads | internal/core/outbox.go:237-274 | every operation is a sequence of the guarded actions; nothing else touches the state |
| Coverage.ApplyExtends | internal/core/outbox.go:16-22 | no operation but delivery touches a stored row or a mark; new rows have fresh, growing ids |
| Protocol.AlwaysSafe | internal/core/outbox.go:568-617 | in every interleaving: ids in flight are exactly `sending`, recipients are counted exactly, no row twice in flight, one pass per recipient |
| Protocol.CollectedFree | internal/core/outbox.go:601-604 | a new pass takes no row and serves no recipient of an open pass |
| Protocol.BookBooks | internal/core/outbox.go:684-727 | every booking finds its row stored and undelivered |
| Protocol.BookLeaves | internal/core/outbox.go:699-703 | booking a pass leaves every other row alone |
| ProtocolResults.AtMostOneSuccess | internal/core/outbox.go:684-727 | no row is sent successfully twice, and a stored row was sent successfully exactly when it is delivered or about to be booked so |
| ProtocolResults.SendsBounded | internal/core/outbox.go:598-611 | attempts never exceed the maximum, a row in flight keeps the count it was collected with, r retries allow at most maximum times r + 1 sends |
| ProtocolResults.RetryArms | internal/core/views.go:238-245 | a retry while the send is out re-arms the row |
| ProtocolResults.RearmWins | internal/core/outbox.go:715-722 | no step but the booking of the row's own send undoes the re-arm of the last retry; there a success delivers the row and a failure leaves it untried and due as that retry made it |
| ProtocolResults.RearmHolds | internal/core/outbox.go:715-722 | the same along every run, further retries included, up to the booking that ends the send |
| ProtocolResults.BackoffBounds | internal/core/outbox.go:723-725 | the wait lies between one and sixteen retry delays and doubles with the attempt |
| ProtocolResults.AlwaysInOrder | internal/core/outbox.go:640-649 | sends to one recipient never interleave two passes, and a pass sends in queue order |
| ProtocolResults.SendsFollowTheQueue | internal/core/outbox.go:568-617 | of two sends of one pass the earlier is of the earlier row, with no other pass between them to that recipient |
| Overtaking.AlwaysComplete | internal/core/outbox.go:640-649 | in every run the log holds exactly the sends that have returned, each once per place in its pass |
| Overtaking.OvertakingNeedsBackoff | internal/core/outbox.go:568-617 | in every run, when a whole-outbox pass has sent a later row to a recipient, every earlier row to it that was undelivered when the pass was collected was then in backoff or out of attempts, or was sent by that pass before |
| Record.AlwaysRecorded | internal/core/service.go:474-511 | in every reachable state the rows of an event's last transaction, stored and pruned, are as many as it counted |
| Record.DeliveryRecordExact | internal/core/outbox.go:159-210 | the parts of the status add up, empty means reached nobody, never empty and complete, pruned rows were delivered, older transactions are not counted |
| Telling.GuestsExact | internal/core/service.go:494-506 | every folded guest address gets a row, none gets two, and each row goes to a guest of the event |
| Telling.PeopleExact | internal/core/service.go:484-486 | a person gets as many rows to an address as they have usable channels with it |
| Telling.FanOutIsExact | internal/core/service.go:474-511 | one row per broadcast, usable assignee channel and distinct guest address, under one new transaction, and their number on the event |
| Telling.NeverSilent | internal/core/service.go:518-526 | whatever operation cancels, reinstates or moves an event does so under a new transaction, and if that reached nobody the same operation pages the admin or records that it cannot |
| Recipients.EveryChangeReachesExactly | internal/core/service.go:474-526 | in every reachable state, whatever operation does so, the rows under that new transaction are exactly one per broadcast, usable channel of each assignee and distinct guest address the event has when the operation ends |
| Telling.DeadlineTells | internal/core/outbox.go:510-526 | the dead-man switch folds an empty fan-out into its own page |
| Telling.SyncTells | internal/core/import.go:210-223 | every silent move of a sync is announced in its page |
| Cycles.AlwaysFaithful | internal/core/outbox.go:312-535 | in every reachable state the stamps of an event are what the trail says happened since its last reset |
| Cycles.OncePerCycle | internal/core/outbox.go:312-535 | between two resets at most one ask, one nudge, one unreachable warning and one deadline |
| Cycles.OneActPerTick | internal/core/outbox.go:229-236 | no tick does two of the four to one event, whatever the leads |
| Cycles.DeadManIsFair | internal/core/outbox.go:470-517 | an automatic cancellation hits only a scheduled, unconfirmed event inside its window, with an ask an hour old or nobody to ask |
| Cycles.OnlyTicksCancelOnTheirOwn | internal/core/service.go:361-407 | no operation but a tick records a cancellation by deadline |
| Nudging.OneActInTheTrail | internal/core/outbox.go:229-236 | whatever the leads, one tick enters at most one ask, nudge, warning or deadline about an event, and enters it once |
| Nudging.TickNudgesIff | internal/core/outbox.go:417-456 | a whole tick nudges an event exactly when nudging is on, its window is open and somebody reachable has not answered since the ask |
| Nudging.NudgeLeavesTheGrace | internal/core/outbox.go:427-436 | every nudge a tick enters in the trail leaves the grace after the ask and before the deadline opens, and is all that tick enters about the event |
| Nudging.AsksFallInTheirWindow | internal/core/outbox.go:312-378 | in every reachable state every ask was sent between the opening of its event's reminder window and its start |
| Nudging.RunsNudgeIff | internal/core/outbox.go:417-456 | which configurations, accepted or not, let some run nudge: those with room for it, and no others |
| Nudging.AcceptedNudgesIff | internal/core/service.go:68-74 | which accepted configurations with a nudge lead let some run nudge |
| Nudging.AcceptedYetNeverNudges | internal/core/service.go:68-74 | two accepted configurations with a nudge lead under which no run logs a nudge |
| Silence.SilenceCancels | internal/core/outbox.go:470-535 | with ticks close enough and nobody answering, an event that cancels when silent is off by its start, whatever else runs |
| Silence.TickBrings | internal/core/outbox.go:312-535 | what one whole tick makes of one event |
| SyncResults.SyncIsIdempotent | internal/core/import.go:163-316 | a second sync at the same clock with the same occurrences, in any order and with any repetitions, changes nothing but the trail, as long as the feed says one thing about each key |
| OccurrenceKeys.KeyTells | internal/icsimport/expand.go:83-85 | the key text names one uid and one original start, whatever the uid holds |
| FeedSync.AgreesIff | internal/icsimport/expand.go:115-192 | an expansion says one thing about each key exactly when no two expanded events of one uid differ about a start they share |
| FeedSync.OneMasterAgrees | internal/icsimport/expand.go:115-192 | so a feed with one series for each uid never contradicts itself, whatever its rules repeat |
| FeedSync.ExpansionSyncsOnce | internal/core/import.go:163-316 | syncing such an expansion again, in whatever order, changes nothing but the trail |
| FeedSync.FetchCalendar | internal/core/import.go:101-105 | parse, expand and sync: the state becomes what the sync makes of the expansion of the text |
| SyncResults.VanishedExactly | internal/core/import.go:246-272 | after a sync that is not suspect a live imported event in the window is marked exactly when the feed lacks it |
| SyncResults.EmptyFeedMarksNone | internal/core/import.go:255-264 | an empty feed marks nobody, and is suspect exactly when something would be missing |
| SyncResults.SyncLeavesCancelled | internal/core/import.go:196-202 | a sync leaves cancelled events as they are and cancels none |
| SyncResults.TombstonesHold | internal/core/delete.go:50-72 | along every run a cancelled occurrence stays stored and cancelled, alone under its key, until it is reinstated; at every point deleting it is refused and reinstating it works |
| Deletion.ImportedDeletedIff | internal/core/delete.go:60-94 | exactly when a stored imported event is deleted, under any configuration, and that it alone goes |
| Deletion.NoSyncNoDeletion | internal/core/delete.go:50-72 | along every run without a sync an unmarked imported event stays stored and unmarked, and its deletion is refused for good |
| Deletion.ImportOffStillRefuses | internal/core/delete.go:57-72 | a reachable state where the import is off and both an imported event that is over and a cancelled one are refused |
| Civil.DayRoundTrip | internal/icsimport/expand.go:484-485 | the date of a day and the day of a date undo each other |
| Recurrence.FixedOffsetIsRegular | internal/icsimport/expand.go:338-342 | a fixed offset meets what the model asks of a location |
| RecurrenceResults.NthWeekdayMeans | internal/icsimport/expand.go:552-570 | the n-th weekday has n - 1 of its kind before it (after it for negative n), and exists exactly when there are that many |
| RecurrenceResults.MonthCandidatesMean | internal/icsimport/expand.go:480-550 | a month's candidates are its selected days in order, or those at the asked ranks |
| RecurrenceResults.DailyMeans | internal/icsimport/expand.go:381-396 | the daily candidates are the multiples of the interval from the anchor |
| RecurrenceResults.WeekSelectsMeans | internal/icsimport/expand.go:418-421 | a day is selected by weekday and by whole weeks between Mondays |
| RecurrenceResults.WeeklyMeans | internal/icsimport/expand.go:397-425 | the weekly candidates are the selected days from the anchor |
| RecurrenceResults.FastForwardLosesOnlyEarlier | internal/icsimport/expand.go:354-425 | starting at the window edge loses only earlier candidates, and none of a counted series |
| RecurrenceResults.PlainAscends | internal/icsimport/expand.go:380-473 | daily, weekly and monthly candidates come in order, and yearly ones when BYMONTH lists the months in calendar order |
| RecurrenceResults.CountedSeries | internal/icsimport/expand.go:360-378 | COUNT=n gives the first n candidates from the anchor in the order of the enumeration, or all there are, cut at UNTIL and the window; in that order is in time unless a yearly rule lists its months otherwise |
| Expansion.Budget.Spend | internal/icsimport/expand.go:53-61 | a step is granted exactly while both allowances last, and a denial is remembered |
| Expansion.Budget.NextEvent | internal/icsimport/expand.go:48-50 | the event's allowance is fresh, the feed's goes on |
| Expansion.FindNthWeekday | internal/icsimport/expand.go:554-570 | the loop finds the n-th weekday |
| Expansion.SelectMonth | internal/icsimport/expand.go:484-550 | the candidates of a month, or a denied budget |
| Expansion.EnumerateDaily | internal/icsimport/expand.go:381-396 | the loop yields the starts of the enumeration unless the budget ran out, for at least one step each |
| Expansion.EnumerateWeekly | internal/icsimport/expand.go:397-425 | the same for weekly rules |
| Expansion.EnumerateMonthly | internal/icsimport/expand.go:426-447 | the same for monthly rules |
| Expansion.EnumerateYearly | internal/icsimport/expand.go:448-473 | the same for yearly rules |
| Expansion.ExpandRule | internal/icsimport/expand.go:343-478 | every start from the skip-ahead point to the end, or nothing when the budget ran out |
| FeedExpansion.NoOverrideBefore | internal/icsimport/expand.go:98-113 | before the earliest override nothing is overridden |
| FeedExpansion.IndexOverrides | internal/icsimport/expand.go:103-113 | the two maps know exactly the overrides of the feed |
| FeedExpansion.ResolveStart | internal/icsimport/expand.go:168-191 | EXDATE, override and window applied to one start |
| FeedExpansion.AddRDates | internal/icsimport/expand.go:145-166 | each RDATE that is new is added, at the cost of a step |
| FeedExpansion.FastForwardRefines | internal/icsimport/expand.go:130-191 | enumerating from the edge yields the same occurrences, after RDATE, EXDATE and overrides, as enumerating from the anchor |
| FeedExpansion.ExpandEvent | internal/icsimport/expand.go:116-192 | one event contributes its complete expansion from the anchor, or nothing and a reason |
| FeedExpansion.Expand | internal/icsimport/expand.go:92-195 | every event contributes everything or is skipped, too large only when an allowance was spent in full, and the result is bounded |
| IcsText.EscapeIsOneLine | internal/ics/ics.go:63-71 | an escaped text cannot leave its line |
| IcsText.PutLine | internal/ics/ics.go:75-87 | the loop writes the folded physical lines of a content line |
| IcsText.Feed | internal/ics/ics.go:23-50 | the calendar is the folded text of its content lines |
| IcsParse.Unfold | internal/icsimport/parse.go:142-170 | the logical lines of a feed |
| IcsParse.SplitProp | internal/icsimport/parse.go:174-201 | name, parameters and value, cut at the first colon outside quotes |
| IcsParse.UnescapeText | internal/icsimport/parse.go:203-219 | what an escaped text says |
| IcsParse.ReadOne | internal/icsimport/parse.go:72-131 | what one property does to the open event |
| IcsParse.Parse | internal/icsimport/parse.go:36-135 | the walk over the lines; of any text, as many events are returned or listed as skipped as VEVENTs are closed in it |
| IcsRoundTrip.UnescapeEscape | internal/icsimport/parse.go:203-219 | unescaping an escaped text only turns its line breaks into LF |
| IcsRoundTrip.StampReads | internal/icsimport/parse.go:242-250 | a printed stamp reads back as its second |
| IcsRoundTrip.FoldKeeps | internal/ics/ics.go:73-87 | folding keeps the text and the limit, and marks every continuation |
| IcsRoundTrip.TitlesStayOnTheirLine | internal/ics/ics.go:63-87 | the feed unfolds to exactly its content lines, whatever the titles, within 74 octets a line |
| IcsRoundTrip.ParseFeed | internal/icsimport/parse.go:36-135 | parsing the printed feed yields the printed events in order |
| IcsRoundTrip.EveryEventReadBack | internal/icsimport/parse.go:54-62 | nothing is skipped exactly when every start is kept, and every event comes back as it was exactly when every start and every end is kept |
| IcsRoundTrip.FeedThenParse | internal/icsimport/parse.go:36-135 | printing then parsing gives uid, text, times and status of every event back exactly under that condition; short of it starts are listed as missing and ends become starts |
| IcsRoundTrip.FirstSecondStartIsSkipped | internal/icsimport/parse.go:54-55 | an event with a start that the round trip lists as having none |
| IcsRoundTrip.FirstSecondEndIsLost | internal/icsimport/parse.go:57-58 | an event whose end the round trip replaces by its start |
| RuleParse.RulesKeepTheLimits | internal/icsimport/expand.go:238-336 | whatever the text, a rule that is read has interval and count within their limits and lists only months from 1 to 12 and no day or position 0 |
| RuleParse.ParseRule | internal/icsimport/expand.go:238-336 | the loop over the parts reads the rule the text stands for, or refuses it |
| FeedImport.ParsedExpands | internal/core/import.go:101-104 | whatever the text, every event the parser returns has a uid, a start, a location and a rule the expansion can work with |
| FeedImport.ImportFeed | internal/core/import.go:101-104 | parse, then expand: every VEVENT the text closes is listed as unreadable, overrides an occurrence, is listed as skipped, or contributes its complete expansion, and the occurrences are bounded |
| Limiter.Limiter.Sweep | internal/httpapi/limiter.go:37-47 | at most once a window exactly the idle buckets go |
| Limiter.Limiter.Call | internal/httpapi/limiter.go:33-62 | one call: sweep, find, create or share a bucket, take |
| Limiter.IdleIsFull | internal/httpapi/limiter.go:67-73 | an idle bucket decides like a full one |
| Limiter.SweepingChangesNothing | internal/httpapi/limiter.go:33-62 | every decision is that of the never-swept bucket the call is charged to |
| Limiter.RefinesNeverForgetting | internal/httpapi/limiter.go:33-62 | while the cap is not hit the limiter is one never-swept bucket per key |
| Limiter.MapStaysSmall | internal/httpapi/limiter.go:48-59 | the map never exceeds its cap |
| Limiter.AdmissionBound | internal/httpapi/limiter.go:64-80 | any bucket, the shared one too, admits at most a burst plus the refill of the interval |
| Redaction.ShownChannels | internal/core/redact.go:96-105 | webhook targets are cut, everything else is kept |
| Redaction.ShowInPlace | internal/core/redact.go:109-114 | the same in place |
| Redaction.PatchChannels | internal/core/people.go:114-142 | the two slots edited, everything else in order |
| Redaction.RestoreShown | internal/core/redact.go:121-141 | each marked display takes the next stored target it stands for, or the write is refused |
| Redaction.WrittenBackIs | internal/core/redact.go:78-84 | a marked webhook comes back exactly, an unmarked one up to one trailing slash |
| Redaction.RestoresShown | internal/core/redact.go:121-141 | a shown list restores to the stored one, also when targets share a display |
| Redaction.EditKeepsTheOthers | internal/core/redact.go:116-141 | view, edit and write never fail and keep every channel outside the slots |
| Redaction.EditChannels | internal/core/people.go:109-142 | the same for the three steps run one after the other |
| Redaction.StrangerRefused | internal/core/redact.go:131-135 | a marked display that stands for no stored target is refused |

## Left out

- Persistence, the audit file and its signature, and store failures; the audit trail is a field of the state and keeps the kinds some property speaks about. Answers and channel problems found at start-up are not among them.
- HTTP handlers, sessions, the portal, invites, Telegram onboarding, the command line: single-branch facts.
- The senders: a send is one nondeterministic success or failure, a panic is a failure; the text of the last error is not kept.
- Message wording, subjects, links, buttons and headers: a message is reduced to which page it is and which events it names.
- Identifiers are numbers from one counter instead of random strings; every new one is fresh either way.
- Recipients are a pair instead of a joined string, and the key of an expanded occurrence is the pair of uid and original start.
- Runs start from the empty state and stay in one process. Rows from before transactions existed are classified as the program does, but the delivery record is stated for runs that create none.
- The Go zero time is `None` for stamps; a start is never the zero time in the core part.
- One locked section reads one clock value; the program reads the clock several times under the lock.
- Staffing edits are one arbitrary step: people, channels, guests, targets and assignments may change in any way between two operations.
- Input validation of new events: the model creates events with any times.
- Roles of assignments, calendar links, proposals and invites.
- A location is an abstract map from days to instants that gives days back in order, which fixed offsets satisfy; a clock change across midnight is not modelled. Durations do not saturate.
- Texts are runes, not bytes: invalid UTF-8 is not modelled. Property names and parameters are upper-cased, and lists trimmed, by ASCII rules; a fractional second after a time of day is refused, which Go's time parser accepts.
- The limiter counts in real numbers instead of floating point, and its clock does not go back where that is assumed.
- `redactTarget` and text trimming are parameters of the redaction model; URLs inside free text are not cut.
- Yearly rules and the parts of a rule the program ignores: the model does what the code does and claims nothing beyond it.
- Services.Service.Tick: the scan for ill-formed stored channels that opens the first tick of a process, and its one page, are left out.
- Services.Service.SyncCalendar: the report counts and names the events; its sentences, the list of skipped series and the stored last report are left out.
- FeedSync.FetchCalendar: the download, its size cap and the choice of the window from the clock are left out.
- Services.Service.Delete: action links, proposals and invites of the event, which go with it, are not part of the model, and the audit entry does not carry the numbers of rows dropped.
- Services.NewService: loading the store and the notifier are left out.
- Services.Service.BookResult: the method also takes back the marks of its attempt, which the program does in the same loop body.
