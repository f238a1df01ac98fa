# Models of six Synapse components

Dafny models, with proofs, of the parts of Synapse whose correctness is hardest to see from the code:

- **room authorisation** (`event_auth.py`): whether an event may enter a room;
- **application service delivery** (`appservice/scheduler.py`): queues, transactions, recovery with backoff;
- **the rate limiter** (`api/ratelimiting.py`): a lazily leaking bucket with pruning;
- **the database porter** (`_scripts/synapse_port_db.py`): a batched copy that survives crashes, in foreign-key order;
- **the notifier** (`notifier.py`): two-way indexes of user streams, wakeups, and events waiting for their position;
- **client visibility** (`visibility.py`): two independently written filters.

`dafny verify dfyconfig.toml` checks everything.

## How it is modelled

Room authorisation. `AuthEvents` has events, room state and power levels; `RoomVersions` the flags of every known
room version; `AuthRules.Allowed` the state-dependent rules as a total predicate, where raising means rejecting. The
rules that loop are methods (`AuthChecks`), proved to decide order-free predicates. `AuthSelection` asks how far the
selected state decides the verdict. `AuthTransitions` has the membership rules as a table, and `AuthSending` those for
all other events row by row, sharing with the rules only the reading of memberships and levels. `RoomHistory`,
`RoomPower`, `RoomLevels` and `RoomConduct` prove what holds of every run: a run is a linear history in which each
event was accepted against the state before it, either the whole state or the part that auth event selection keeps.
`RoomWitnesses` has a run for each less expected thing that does happen, in every known room version, with auth lists
that pass the state-independent rules.

Application services. `ServiceQueue` has the mutable queues as a class, for all services. `Scheduler` is a machine
for one service whose steps are the stretches of code between two `await`s, with raised exceptions as steps of their
own. `SchedulerOrder` says exactly when deliveries stay in order in this machine, `SchedulerStranding` exactly when a
stored transaction has somebody to deliver it. `SchedulerRecovery` groups some of the steps into atomic blocks and
derives that neither can then go wrong. `SchedulerTraces` has the runs in which they do.

Rate limiter. Times and rates are real numbers. The class works step by step like the original; `RateLimiterRuns`
compares whole runs with an eager bucket.

Porter. Tables are maps from row ID to row, the destination is a multiset of rows, a transaction is one atomic step.
`PortCopy` copies one table with crashes as budgets: the number of transactions before the session dies. `PortWaves`
is the order of the tables, `PortSetup` the truncation at the start. `PortSession` composes them into whole sessions
over all tables, transaction by transaction, with crashes in between.

Notifier. Streams and listeners are objects on the heap. `NotifierRuns` follows the streams of one user over runs, with
registrations under way between two pauses, by the same branches as the class. `StreamTokens` and `PendingEvents` hold
the tokens with one position per writer and the list of events that wait for a position to be covered.

Visibility. `Visibility` has both filters as loops over lists and sets, each reading only the parts of the state that
the original fetches. `VisibilityMeaning` tells what the results are from the stores alone.

## What was found

The models follow the code. Where a plausible expectation fails, a run shows it, or a lemma gives the exact condition,
or both.

- The rules read state that `auth_types_for_event` does not select: the room topic, through the channel override
  (`handlers/setka_channels.py:92-109`), and the power levels under a non-empty state key (`event_auth.py:992`).
  `AuthSelection.SelectionIsExact` says exactly when that decides the verdict; `RoomWitnesses.TopicDecisionHappens` and
  `RoomWitnesses.OtherPowerKeyHappens` are runs in which it does.
- A third-party invite can turn a joined member into an invited one (`RoomWitnesses.JoinedUserInvited`), and a banned
  user can still complete a third-party invite of their own (`RoomWitnesses.BannedUserInvites`), though hardly anything
  else (`RoomConduct.BannedSendersAreMute`).
- The shortcut for the creator's first join does not look at the sender (`RoomWitnesses.CreatorJoinedByOther`), so
  `RoomHistory.JoinProvenance` sets it apart.
- `record_action` on a bucket that drained long ago credits the idle time against the new actions
  (`RateLimiterRuns.RecordIsEagerUnlessStale`).
- Transactions can overtake each other (`SchedulerTraces.TransactionsCanOvertake`), because a service is marked down
  some time after the failure. They can if and only if a sender finds the service up while a transaction is stored
  (`SchedulerOrder.EarlyLooksLeadAstray`).
- A transaction can be stored just after the recoverer has found nothing left, and then has nobody to deliver it
  (`SchedulerTraces.TransactionsCanBeStranded`, exactly `SchedulerStranding.AttendedExactly`).
- An exception while key counts are computed drops the batch and leaves the queue without a sender
  (`SchedulerTraces.QueuesCanBeAbandoned`, exactly `Scheduler.StrandedExactly`).
- Taking a batch for one service clears the device list summaries of all (`ServiceQueue.SummariesSinceAnyTake`).
- The wave loop never ends if the constraints have a cycle or lead to a table that is not ported
  (`PortWaves.WavesEndExactly`).
- Registering a second stream for a user, possible because the caller awaits between looking and registering, breaks
  the indexes and loses listeners (`Notifier.Notifier.Register`).
- A stream is registered with a token taken before the user's rooms are awaited, so news in between wakes nobody, and a
  listener with that token waits although something has happened (`NotifierRuns.RegistrationMissesNews`, exactly
  `NotifierRuns.CarefulExactly`).
- The two visibility filters differ for call invites in public rooms and for an erased sender's event that tightens
  the history visibility (`Visibility.FiltersAgree`); a soft-failed call invite shown to an administrator rings or not
  depending on the other events of the list (`Visibility.OthersMatterOnlyToSoftFailedCalls`).

Set-up of the porter relies on the schema: truncating a table would empty any append-only table that references it
while its saved progress stays (`PortSetup.SetupKeepsAppendOnly`). The append-only tables with foreign keys,
`event_edges` (`storage/schema/main/full_schemas/72/full.sql.postgres:1306`), `room_memberships` and
`un_partial_stated_event_stream`, reference `events` alone, which is append-only, so no rows are lost
(`PortSetup.SetupKeepsAllAppendOnly`).

## Model

| member | source | states |
|---|---|---|
| RoomVersions.KnownVersionsAreCoherent | api/room_versions.py:121-499 | in every known room version, knock_restricted comes with restricted and knock, and creator power with the implicit creator and strict canonical JSON |
| RoomVersions.FlagsByVersion | api/room_versions.py:121-499 | read flag by flag, which of the known versions have it |
| Ids.DomainFollowsColon | types/__init__.py:266-270 | the domain of an ID is what follows its first colon, and an ID without one has none |
| Ids.UserIdsJoin | types/__init__.py:335-350 | a sigil, a name, a colon and a server is a valid user ID iff the server is a host name, or one with a colon and digits |
| Ids.HostsJoin | util/stringutils.py:137-173 | two names joined by a dot are a host name iff both are |
| Ids.LabelExactly | util/stringutils.py:137-173 | a name without dots is a host name iff it is letters, digits and hyphens, at least one |
| AuthSelection.AuthTypesForEvent | event_auth.py:1210-1252 | the key set built up case by case is the selection; it raises exactly when membership, state key or token is missing |
| AuthSelection.SelectionByKey | event_auth.py:1210-1252 | key by key: exactly which keys are selected for which event, and when selecting raises |
| AuthSelection.SelectionSuffices | event_auth.py:279-381 | any two states that agree on the selected keys give one verdict, for every event that is neither a channel message nor power levels under a non-empty key |
| AuthSelection.SelectionIsExact | event_auth.py:827-880 | some other state with the same selected part gets the other verdict if and only if the topic alone, or only the power levels under the event's own non-empty key, stand between the event and acceptance |
| AuthSelection.TopicIsFree | handlers/setka_channels.py:92-109 | when only the topic is in the way, changing the unselected topic to any text gives acceptance if the text marks a channel and rejection if not |
| AuthSelection.OtherPowerKeyIsFree | event_auth.py:991-1000 | power levels under a non-empty key: removing the one unselected entry at that key gives acceptance, and setting it gives acceptance exactly when the event may change what it is set to |
| AuthSelection.SelectedStateIsStricter | event_auth.py:1210-1252 | checking against the selected part accepts exactly what the whole state accepts, less the channel comments that the topic lets in |
| AuthSelection.MembershipChecksAgree | event_auth.py:523-769 | for member events the selected keys cover all that the membership rules read, including third-party tokens and join authorisers |
| AuthChecks.LevelsToCheck | event_auth.py:1002-1036 | the list collects every scalar level and every key that the old or the new event lists, and nothing else |
| AuthChecks.RefsCoverLevels | event_auth.py:1038-1066 | checking each entry of that list is the same as the rule on scalars and on each of the maps |
| AuthChecks.CheckPowerLevels | event_auth.py:921-1066 | the loop that stops at the first forbidden change accepts exactly the allowed power levels, which `PowerChanges.ChangesExactly` spells out |
| PowerChanges.ChangesExactly | event_auth.py:1038-1066 | these are the levels that differ only in scalars and entries that were, and will be, at most at the sender's level, and in no entry of another user that was at that level |
| AuthChecks.CheckRedaction | event_auth.py:883-918 | passes, defers to a later comparison of senders, or rejects, in each case exactly when level, room version and domains say so |
| AuthChecks.CheckStateIndependentRules | event_auth.py:160-276 | a create event is judged on its own; for any other the verdict is the order-free condition on the auth list, over batch and store together |
| AuthChecks.CheckAuthList | event_auth.py:221-276 | the loop accepts iff all entries are known, in the room, not rejected, selected, with pairwise distinct keys, and one is the create event |
| AuthChecks.AuthListExactly | event_auth.py:221-276 | spelled out: each listed event is known, in the room, not rejected, state of a selected key; no two have one type and key; one is the create event |
| AuthChecks.AuthListIsOrderFree | event_auth.py:221-276 | permuting the auth list does not change the verdict |
| AuthChecks.AuthListIgnoresSplit | event_auth.py:189-219 | nor does moving lookups between the batch and the store |
| AuthChecks.AuthListIsShort | event_auth.py:1223-1252 | a list that passes is no longer than the selection, and so has at most six entries |
| AuthChecks.SelectedListPasses | event_auth.py:221-276 | an event that lists the state entries auth selection yields, in any order, passes the check of its list, if those entries are known, not rejected and of its room |
| AuthTransitions.ChecksFollowTable | event_auth.py:523-769 | the sequence of membership checks accepts exactly what a table by old standing, new membership and sender permits |
| AuthTransitions.MembersFollowTable | event_auth.py:523-563 | a member event is accepted iff it is the named creator's join right after the create event, or the table permits it; it raises if then no creator is named |
| AuthSending.RulesFollowRows | event_auth.py:279-381 | any event is accepted iff the room lets its sender's server take part and the row for its type holds, where each row says by itself what the state must hold: levels, channel comments, owned keys, aliases, redactions, power levels |
| AuthSending.OwnerIsCut | event_auth.py:858-866 | the user that a state key belongs to, whose ID it is or extends by an underscore, is found by cutting at the first underscore after the colon |
| RoomWitnesses.JoinedUserInvited | event_auth.py:614-619 | in every known room version a run, in which each event's auth list passes its check too, has a joined user turned into an invited one by the answer to a third-party invite |
| RoomWitnesses.BannedUserInvites | event_auth.py:614-619 | ... and such a run in which a banned user's answer to their own third-party invite is accepted |
| RoomWitnesses.CreatorJoinedByOther | event_auth.py:540-550 | ... and such a run in which somebody who is not in the room joins the creator to it |
| RoomWitnesses.TopicDecisionHappens | handlers/setka_channels.py:92-109 | ... and such a run with a channel comment that the whole state accepts and its selected part rejects |
| RoomWitnesses.OtherPowerKeyHappens | event_auth.py:991-1000 | ... and such a run with power levels that only the unselected entry under their own key can decide |
| RoomHistory.StateIsLastEvent | event_auth.py:302 | a state entry is the last event of the history with its key, and a key without entry has no event |
| RoomHistory.CreateIsFirst | event_auth.py:458-511 | every run starts with an acceptable create event and has no other, and the state's create event is that one |
| RoomHistory.AcceptedOnWholeState | event_auth.py:279-381 | member events and room power levels of a run pass on the whole state, whichever of the two states they were checked against |
| RoomHistory.MemberChange | event_auth.py:540-550 | every member event of a run is the creator's join right after the create event, or an allowed change |
| RoomHistory.BannedUntilUnbanned | event_auth.py:722-736 | a banned user's next membership is ban, or leave sent by another, joined user at the ban and kick levels and strictly above them |
| RoomHistory.NoJoinWithoutUnban | event_auth.py:670-671 | between a ban and a state in which the user is not banned there is such an unban |
| RoomHistory.JoinProvenance | event_auth.py:661-719 | every joined user has been joined since a join of their own that was justified then: creator's first join, earlier invite in force, public room, or restricted room with a joined authoriser who could invite |
| RoomHistory.InviteOnlyProvenance | event_auth.py:703-714 | while the join rule is invite, a joined user is the creator or was invited earlier in the run |
| RoomHistory.RestrictedProvenance | event_auth.py:674-701 | with restricted rules too, the third possibility is a join that names a user whose membership at that moment was join and whose level was at least the invite level |
| RoomHistory.VouchedJoinIsAccepted | event_auth.py:661-701 | the converse: in any run, the own join of a user who is not banned, naming such a user under restricted rules, is accepted |
| RoomPower.LevelsInForce | event_auth.py:939-963 | power levels in force never list a creator and hold canonical integers |
| RoomPower.CreatorsAreSupreme | event_auth.py:1073-1112 | with creator power, in every reachable state each creator is strictly above everyone else and not in the users map |
| RoomPower.NobodyAboveCreators | event_auth.py:1090-1092 | no user's level is above a creator's in any reachable state |
| RoomPower.CreatorsAreUntouchable | event_auth.py:728-749 | no run has a ban of a creator, by anyone, nor a kick: all that others can do to a creator after the first join is invite |
| RoomPower.ChangeKeepsBound | event_auth.py:1038-1066 | an allowed change of power levels keeps any bound on all users' levels, and the entry of anyone at the bound other than the sender |
| RoomPower.PowerStep | event_auth.py:988-1000 | the room's power levels change only by an event that compared itself with the levels in force |
| RoomPower.PowerCeiling | event_auth.py:998-1066 | without creator power, a bound on all levels holds for the rest of every run |
| RoomPower.CeilingHolderStays | event_auth.py:1042-1053 | a user listed at the bound stays listed there until they send power levels themselves |
| RoomPower.CeilingHolderIsUntouchable | event_auth.py:728-749 | and until then nobody kicks or bans them |
| RoomLevels.LevelIsAsLastSet | event_auth.py:1073-1112 | in every reachable state a user's level is what the last power levels list, or their default, or 0; before any, 100 for the named creator and 0 for others; 2^53 for creators with creator power |
| RoomLevels.ThresholdIsAsLastSet | event_auth.py:790-824 | the level for an action, and for sending each type of event, is what the last power levels say, the entry for the type first |
| RoomLevels.ThresholdUntilSet | event_auth.py:1115-1125 | and without power levels the stated default, 50 for state and 0 for messages |
| RoomLevels.JoinRuleIsAsLastSet | event_auth.py:585-590 | the join rule is that of the last join rules event, or invite |
| RoomLevels.PowerChangesAreEntitled | event_auth.py:988-1066 | where a run replaces power levels, every scalar, event, user and (from version 6) notification entry that differs was and becomes at most the sender's level, and was below it if another user's |
| RoomLevels.EntitledChangesAreAccepted | event_auth.py:921-1066 | and every such replacement by a joined sender at the level for power levels, for user IDs other than creators, is accepted |
| RoomLevels.StartsExactly | event_auth.py:458-511 | an event starts a run iff it is a create event with nothing before it, a room ID as its version wants, a known version, a creator where one must be named, and well-formed IDs of others |
| RoomConduct.SendersAreJoined | event_auth.py:772-787 | the sender of any event other than create, member and old alias events is joined when it is accepted |
| RoomConduct.BannedSendersAreMute | event_auth.py:614-646 | from a banned user a run accepts only old alias events and answers to third-party invites they sent themselves |
| RoomConduct.OwnedState | event_auth.py:853-878 | in every reachable state an entry under a user's ID was set by that user, or, with owned state, by someone above the user it names |
| RoomConduct.CreatorsSetFirstState | event_auth.py:790-851 | until a run has power levels, ordinary state (not third-party invites or channel message types) comes from creators only |
| RoomConduct.ThirdPartyProvenance | event_auth.py:1128-1196 | every accepted invite with a third-party bundle answers an earlier third-party invite by the same sender, then joined and at the invite level, for the same target and with a key in common |
| RoomConduct.UnfederatedSendersAreLocal | event_auth.py:313-319 | in a room that does not federate every event is sent from the creating server |
| RoomConduct.UnfederatedMembersAreLocal | event_auth.py:540-563 | and every membership is of a user of that server, or of the named creator, whose first join escapes the check |
| ServiceQueue.Consolidate | appservice/scheduler.py:227-249 | the loop over the summaries computes the consolidated summary |
| ServiceQueue.ConsolidatedIsLatest | appservice/scheduler.py:229-248 | that summary lists each user exactly as the last summary to mention them does |
| ServiceQueue.ServiceQueuer.Enqueue | appservice/scheduler.py:121-167 | extends exactly this service's queues, and starts a sender iff there is something to send and none is running |
| ServiceQueue.ServiceQueuer.Submit | appservice/scheduler.py:121-211 | that nothing waits for a service without a sender is kept by every submission; a sender is started iff there is something to send and none runs, and its first batch is not empty |
| ServiceQueue.ServiceQueuer.TakeBatch | appservice/scheduler.py:206-259 | takes the first hundred of each kind, or all, and leaves the rest; lists each user as the last queued summary to mention them; clears the summaries of all services; stops only with empty hands and nothing left waiting |
| ServiceQueue.ItemsConserved | appservice/scheduler.py:121-226 | whatever other services do, the events, the ephemeral items and the to-device messages taken for a service and those queued are those put, each kind in order |
| ServiceQueue.BatchSplits | appservice/scheduler.py:206-226 | a batch takes the first hundred of each kind, or all, and leaves the rest |
| ServiceQueue.SummariesSinceAnyTake | appservice/scheduler.py:249 | the queued summaries are exactly those put since the last take by any service |
| ServiceQueue.TakenSummaryIsLatest | appservice/scheduler.py:227-249 | a take tells its service of each user what the last summary since any service's last take says |
| ServiceQueue.NextTakeDecides | appservice/scheduler.py:231-249 | a summary is queued until the next take, by whichever service, and gone after it |
| Scheduler.QueueConserved | appservice/scheduler.py:199-291 | at every pause at most one sender runs, batches have at most 100 of each kind, and for events, ephemeral items and to-device messages alike the disposed batches, the batch in hand and the queue are in order exactly what was enqueued |
| Scheduler.NothingDropped | appservice/scheduler.py:366-414 | while no call raises, the stored transactions, the batch in hand and the queue hold every enqueued event in order, and all other data too while the service is not marked down |
| Scheduler.OutcomesHaveCauses | appservice/scheduler.py:388-414 | a batch is dropped only after a call raised, and withheld only without events and after the service was marked down |
| Scheduler.OnlyEventsAreKept | appservice/scheduler.py:390-394 | no transaction without events is ever stored for a service that was found down |
| Scheduler.MarksAreCounted | appservice/scheduler.py:405-434 | in every run each failed delivery marks the service down exactly once, and each recoverer that is done marks it up exactly once, or is about to |
| Scheduler.StrandedExactly | appservice/scheduler.py:199-291 | something is queued without a sender if and only if the queue is not empty and key counting has raised since anything was last enqueued |
| SchedulerTraces.QueuesCanBeAbandoned | appservice/scheduler.py:262-291 | a run that ends with one event lost, another queued and no sender |
| Scheduler.BackoffCountsFailures | appservice/scheduler.py:517-565 | the counter is min(9, 1 + k) after k failed rounds since the last completed transaction |
| Scheduler.DelayDoubles | appservice/scheduler.py:507-521 | the delay is two to that power, at most 512 seconds |
| SchedulerTraces.TransactionsCanOvertake | appservice/scheduler.py:392-429 | a run in which the second transaction is completed while the first is unsent |
| SchedulerOrder.OrderWithoutEarlyLooks | appservice/scheduler.py:391-565 | at every pause of every run in which no sender finds the service up while a transaction is stored, the completed transactions are a prefix of the created ones and the stored are the rest |
| SchedulerOrder.DeliveryKeepsOrderExactly | appservice/scheduler.py:391-411 | once a sender is told that the service is up, an undisturbed delivery keeps the order if and only if nothing was stored |
| SchedulerOrder.EarlyLooksLeadAstray | appservice/scheduler.py:391-411 | a look at the service can be followed by disorder, without another such look, if and only if it finds the service up while a transaction is stored |
| SchedulerOrder.ConfirmedIsPrefixOfEnqueued | appservice/scheduler.py:121-565 | end to end, in such runs and while no batch is dropped, the confirmed events are a prefix of the enqueued ones, as are other data while none is withheld |
| SchedulerStranding.StepAttends | appservice/scheduler.py:391-434 | a step leaves a stored transaction unattended if and only if it stores a batch for a recoverer that has gone |
| SchedulerStranding.AttendedExactly | appservice/scheduler.py:391-565 | a run has a recoverer, a failure being marked or the sender itself there for every stored transaction at every pause if and only if it has no such step |
| SchedulerTraces.TransactionsCanBeStranded | appservice/scheduler.py:391-424 | a run that ends with a stored transaction, the service up, and no recoverer, sender or failure |
| SchedulerRecovery.CoarseRunsAreRuns | appservice/scheduler.py:366-434 | every run with atomic blocks is a run of the machine in which no sender looks early and no batch is stored for nobody |
| SchedulerRecovery.RecoveryIsInOrder | appservice/scheduler.py:391-434 | with atomic blocks, deliveries are in order, the service is down exactly while it has a recoverer, whatever is stored is attended, and a direct delivery is of the only stored transaction |
| SchedulerRecovery.CoarseConfirmsPrefix | appservice/scheduler.py:121-565 | and so of what is confirmed |
| Scheduler.Oldest | storage/databases/main/appservice.py:348-395 | the transaction to retry is the unsent one with the least ID |
| RateLimiter.Ratelimiter.CanDoAction | api/ratelimiting.py:121-245 | verdict, next time and new entries are those of a request, also for exempt callers and a zero rate |
| RateLimiter.Ratelimiter.RecordAction | api/ratelimiting.py:247-277 | adds to the stored count under its stored rate, or raises on a zero rate, leaving all else alone |
| RateLimiter.Ratelimiter.PruneMessageCounts | api/ratelimiting.py:307-330 | drops exactly the drained entries among the timer's keys |
| RateLimiterRuns.RequestIsEager | api/ratelimiting.py:200-229 | a request is allowed iff it fits on top of the leaked level; then exactly its tokens are added, and other keys never change |
| RateLimiterRuns.RequestInNumbers | api/ratelimiting.py:200-229 | in plain arithmetic: the level falls by the rate, a recorded pass adds its tokens, and leaves an entry iff the sum is more than nothing |
| RateLimiterRuns.LevelInNumbers | api/ratelimiting.py:203-206 | an entry's level is its count less the time since its start times the rate, and at least 0 |
| RateLimiterRuns.ZeroRateNeverDrains | api/ratelimiting.py:200-245 | at rate zero nothing leaks, no time is given, and a pass that is to be recorded raises |
| RateLimiterRuns.LevelsCoincide | api/ratelimiting.py:47-69 | after any interleaving of requests and prunes the lazy entry shows the level of the eager bucket at all later times |
| RateLimiterRuns.VerdictsCoincide | api/ratelimiting.py:47-69 | and gives the same verdicts |
| RateLimiterRuns.LevelStaysInBurst | api/ratelimiting.py:200-229 | the level stays between 0 and the burst count |
| RateLimiterRuns.RateBound | api/ratelimiting.py:200-229 | in any window of any run no more than burst + rate * length is accepted for a key |
| RateLimiterRuns.RetryHintIsExact | api/ratelimiting.py:203-245 | the returned time is the least time at which the next single action would be accepted |
| RateLimiterRuns.RecordIsEagerUnlessStale | api/ratelimiting.py:272-277 | recording agrees with the eager bucket at all later times iff the bucket is not stale or nothing is added |
| RateLimiterRuns.RecordInNumbers | api/ratelimiting.py:247-330 | recording adds to the entry, or to a new one, and drops one that would have drained by now |
| RateLimiterRuns.DrainedInNumbers | api/ratelimiting.py:307-330 | an entry is pruned iff its count is at most the time since its start times its rate |
| PortCopy.ConvertRows | _scripts/synapse_port_db.py:995-1029 | the nested loops give, in order, what each row converts to, without the rows that convert to nothing |
| PortCopy.RowIsStoredCellByCell | _scripts/synapse_port_db.py:1005-1020 | a row converts to nothing if and only if some cell outside the boolean columns is text with a NUL; otherwise each cell is kept, or in a boolean column is false for null, zero, empty text and empty bytes and true for all else |
| PortCopy.StoredExactly | _scripts/synapse_port_db.py:1022-1029 | a row is in the result if and only if some source row converts to it |
| PortCopy.SelectForward | _scripts/synapse_port_db.py:473-500 | the ascending batch has the least IDs from the start on, leaving none out before its end |
| PortCopy.SelectBackward | _scripts/synapse_port_db.py:477-508 | the mirror image downwards |
| PortCopy.BatchExtendsImage | _scripts/synapse_port_db.py:520-533 | inserting a batch of new rows gives the converted image of the larger ID set, each row once |
| PortCopy.ImageCounts | _scripts/synapse_port_db.py:520-533 | the image has a row exactly as often as there are source rows that convert to it |
| PortCopy.BatchAdvances | _scripts/synapse_port_db.py:513-550 | a batch moves both ends outwards over exactly the rows it carries and makes progress |
| PortCopy.TablePort.SetupTable | _scripts/synapse_port_db.py:341-402 | resumes an append-only table untouched; any other table, and a new one, starts empty at (1, 0); all invariants hold also if it dies half-way |
| PortCopy.TablePort.HandleTable | _scripts/synapse_port_db.py:432-556 | whenever it dies, the destination holds each storable row between the saved IDs exactly once and nothing else; it ends with all rows copied |
| PortCopy.TablePort.Port | _scripts/synapse_port_db.py:341-556 | after any crashes, one undisturbed session leaves every storable row in the destination exactly once |
| PortWaves.RunWaves | _scripts/synapse_port_db.py:946-982 | the loop ends, with every table in one wave, after all it depends on, and no later than right after something it depends on |
| PortWaves.DependenciesComeFirst | _scripts/synapse_port_db.py:957-964 | in such waves no table occurs twice and each dependency is in a strictly earlier wave |
| PortWaves.MinimalExists | _scripts/synapse_port_db.py:960-964 | without cycles some table of any group depends on no other of the group |
| PortWaves.WavesEndExactly | _scripts/synapse_port_db.py:954-982 | the loop ends if and only if the constraints have no cycle among the tables and lead to no other table |
| PortSetup.SetupKeepsAppendOnly | _scripts/synapse_port_db.py:382-390 | an append-only table keeps its rows through set-up iff it is empty or references no truncated table, and its progress in any case |
| PortSetup.SetupEmptiesTheRest | _scripts/synapse_port_db.py:382-402 | every other table starts from scratch without rows, in whatever order |
| PortSetup.SetupKeepsAllAppendOnly | _scripts/synapse_port_db.py:341-390 | if append-only tables reference only append-only tables, set-up keeps all of them as they are |
| PortSession.SessionsAreSafe | _scripts/synapse_port_db.py:341-982 | at every moment of every session, after any crashes and in any interleaving: append-only tables hold each storable row between their saved IDs exactly once, a table has rows only if all it references are complete, and finished tables are complete |
| PortSession.TruncateKeepsReferences | _scripts/synapse_port_db.py:382-386 | truncating with cascade leaves no row whose table references an incomplete one |
| PortSession.CopyingGoesOn | _scripts/synapse_port_db.py:954-982 | while tables are missing, some table can be copied on or finished, given acyclic constraints that lead to no other table |
| PortSession.SetupGoesOn | _scripts/synapse_port_db.py:341-402 | while some table is not set up, some step of the set-up can be taken |
| PortSession.ActLowers | _scripts/synapse_port_db.py:341-556 | every act of a session but a crash lowers a measure of the work left: rows outside the saved ranges, tables not set up, tables not finished |
| PortSession.UndisturbedSessionsEnd | _scripts/synapse_port_db.py:341-982 | after any crashes, a session that does not crash takes at most as many acts as there is work left |
| PortSession.SessionsEndComplete | _scripts/synapse_port_db.py:946-982 | and where it can go no further, every table has each storable row exactly once |
| StreamTokens.OrderIsCoverage | types/__init__.py:615-634 | one token is before another iff it covers no position that the other does not, over all possible writers |
| StreamTokens.CoversUpToPosition | types/__init__.py:1360-1372 | a token covers what a writer persisted up to and including its position there, the common one for writers without one, and nothing later |
| StreamTokens.AdvanceCoversBoth | types/__init__.py:576-596 | a position is after the combined token iff it is after both |
| StreamTokens.AdvanceIsLeastUpperBound | types/__init__.py:576-596 | the combined token is the least that both are before |
| StreamTokens.BoundCutsEveryWriter | types/__init__.py:636-650 | bounding a token cuts every writer's position off at the bound |
| PendingEvents.PendingIsWaiting | notifier.py:437-462 | in any run of appends and notifications the list holds exactly the entries not covered since they were appended, in order |
| PendingEvents.NotifiedWhenFirstCovered | notifier.py:453-466 | a notification notifies exactly the entries it is the first to cover, in order |
| PendingEvents.NotifiedExactlyOnce | notifier.py:453-466 | that happens at most once to an entry, and does happen iff some later notification covers it |
| PendingEvents.LatestTokenDecides | notifier.py:437-462 | with growing tokens, what waits after a notification is what lies beyond its token |
| Notifier.UserStream.NewListener | notifier.py:188-208 | a listener behind the stream is called back at once, any other waits |
| Notifier.Notifier.Listen | notifier.py:667-680 | a user who starts to wait disturbs nobody else, and waits only if their stream has not moved on |
| Notifier.Notifier.StopListening | notifier.py:203-206 | a listener that gives up is forgotten and nothing else changes |
| Notifier.RegistrationAgrees | notifier.py:901-906 | registering a new stream keeps the two-way indexes in agreement iff it displaces no stream that listens to a room |
| Notifier.Notifier.Register | notifier.py:642-655 | the same of the method: all invariants hold afterwards iff the user had no stream, or one without rooms; and no waiting listener is lost iff nobody waited on such a stream |
| Notifier.Notifier.UserJoinedRoom | notifier.py:908-913 | the user's stream gains exactly the room, in both directions |
| Notifier.RemovalAgrees | notifier.py:171-183 | taking a stream out of all its rooms, and empty rooms out of the index, keeps the agreement |
| Notifier.Notifier.Remove | notifier.py:171-183 | a removed stream is in no index, and nothing else changes |
| Notifier.Notifier.RemoveExpiredStreams | notifier.py:888-899 | removes exactly the streams without listeners that had no notification for more than 600000 ms, so that nobody who waits is lost |
| Notifier.TargetsAreConcerned | notifier.py:571-584 | the streams collected from the indexes are those of named users and of users listening to a named room |
| Notifier.Notifier.OnNewEvent | notifier.py:535-606 | calls back exactly the listeners of those streams, each once, moves the streams to the new token and leaves all others waiting |
| Notifier.Notifier.NotifyPending | notifier.py:437-473 | uncovered entries stay; joins of the rest are indexed first; then exactly the listeners concerned are called back |
| Notifier.JoinersAreConcerned | notifier.py:456-461 | a user whose join is notified is among those concerned |
| Notifier.ConcernedExactly | notifier.py:447-472 | a batch is news to a user iff an entry names them, or is for a room they listen to or join by an entry of the batch |
| Notifier.JoinedExactly | notifier.py:456-461 | a user's stream gains exactly the rooms of their join events in the batch |
| Notifier.NamedOrListening | notifier.py:571-584 | those concerned are the users named and those who listen to one of the rooms |
| NotifierRuns.CarefulExactly | notifier.py:631-680 | a step keeps the user's stream up to date, in all their rooms and the only one waited on, if and only if it is careful: no registration overtaken by news, short of rooms or displacing listeners, and nobody starting to wait on an old stream |
| NotifierRuns.AttentiveExactly | notifier.py:535-680 | from the start this holds at every pause of a run if and only if all its steps are careful |
| NotifierRuns.CarefulRunsMissNothing | notifier.py:535-680 | after such a run nobody waits although news has concerned them since their token |
| NotifierRuns.CarelessStepsMiss | notifier.py:631-680 | after any step that is not careful a continuation leaves somebody waiting although news has concerned them |
| NotifierRuns.RegistrationMissesNews | notifier.py:641-655 | and that happens from the start: news between taking the token and registering, then a listener with that token |
| Visibility.LaxUnderOldOrNew | visibility.py:627-655 | an event that changes the visibility is open to all iff it would be under the old or under the new visibility |
| Visibility.AllowedByOldOrNew | visibility.py:502-574 | a user sees their own membership event iff the old or the new membership allows it or they leave by it, any other event iff their membership after it allows it |
| Visibility.FilterEventsForClient | visibility.py:78-247 | the loops, on the fetched parts of the states, give the replies that the whole states give, in order; `VisibilityMeaning.ListShowsExactly` says which these are |
| Visibility.FetchedStateSuffices | visibility.py:145-158 | visibility, own membership and, with call invites, join rules are all that the decision reads |
| Visibility.ShownExactly | visibility.py:243-247 | an event is shown iff its own reply shows it |
| Visibility.OthersMatterOnlyToSoftFailedCalls | visibility.py:111-150 | the rest of the list changes a reply iff it is a soft-failed call invite to a public room, otherwise visible, and the list has no ordinary call invite |
| Visibility.FilterEventForClients | visibility.py:250-348 | a user is in the result iff every check on the whole state after the event passes for them, which `VisibilityMeaning.BulkHoldsExactly` spells out |
| Visibility.TwoReadsSuffice | visibility.py:321-373 | the two filtered reads of the previous state, each with the event added, see what the state after the event has |
| Visibility.FiltersAgree | visibility.py:376-486 | the filters agree on every user and event except for ringing call invites in public rooms and an erased sender's change from a visibility open to the user to one that their membership does not meet; and the per-user one does not fail |
| Visibility.ListAgreesWithBulk | visibility.py:78-348 | the same end to end: an ordinary event of a list is shown to a user iff the user is in the result for the event, those two exceptions aside |
| Visibility.ErasureMattersOnlyAtBoundaries | visibility.py:627-655 | that second exception is exactly where the sender is erased, the visibility lax, and the membership check fails |
| Visibility.ErasureSeparatesTheFilters | visibility.py:430-456 | and does occur |
| Visibility.AnnotatedWithMembershipAfter | visibility.py:217-241 | a shown event is annotated with the user's membership in the state after it |
| Visibility.PrunedExactly | visibility.py:458-486 | a shown event is pruned iff its sender is erased and the user was not joined at it, or is leaving by it |
| VisibilityMeaning.ListShowsExactly | visibility.py:78-247 | an event of a list is shown iff, told from the stores alone, it was not soft-failed or the user asked for such events; it is no dummy or aliases event; if not state, its sender is not ignored and it is within the room's lifetime; it would not ring a public room; and it is asked for, or open by visibility, or by membership, an erased sender's by membership only |
| VisibilityMeaning.BulkHoldsExactly | visibility.py:250-486 | a user is in the other result iff the event was not soft-failed, passes the same rules for sending, and is open by visibility or membership; an outlier iff it is the user's own membership |
| VisibilityMeaning.OutliersAreOwn | visibility.py:430-448 | an outlier that was not asked for is shown iff it is the user's own membership |
| VisibilityMeaning.ListIsAnswered | visibility.py:145-247 | the filter does not fail if the store has the states of all but outliers and no outlier is asked for |
| VisibilityMeaning.PrunedForOutsiders | visibility.py:458-486 | a shown event is pruned iff its sender is erased, the user was not in the room at it, and it was not asked for |

## Left out

- Room authorisation: signatures of events and of join authorisers, size limits, and the JSON types of content. Levels
  are integers and `additional_creators` is a list of strings; a third-party bundle comes with the set of keys under
  which it verifies.
- Identifiers: server names are host names with an optional port in digits, without IPv6 literals; trimming and
  lower-casing a topic know ASCII only.
- State resolution: histories are linear, so the state before an event is the one the history determines.
- RoomHistory.AcceptedOnWholeState: not stated for messages and other state, which the channel override makes false.
- RoomPower.CreatorsAreSupreme: integers within canonical JSON are part of what a run accepts, as the receiving side
  checks them (`federation/federation_base.py:342-343`).
- Scheduler: starting recoverers at server start, so runs begin with nothing stored; forced retries; and store calls
  that raise while a service is being marked up or down.
- Scheduler.QueueConserved: device lists are conserved only in the sense of `ServiceQueue`, since other services clear
  them; key counts are not part of a batch.
- SchedulerRecovery.RecoveryIsInOrder: the atomic blocks are an assumption that the code does not meet; what holds of
  the code itself is in `SchedulerOrder` and `SchedulerStranding`.
- Rate limiter: rounding of floating-point numbers; the requester, override and application service lookups, which
  become one flag; the wheel timer, which yields any keys; sleeping and raising in `ratelimit`.
- RateLimiterRuns.LevelsCoincide: one positive rate per key and times that do not go back; recording outright is not
  an operation of these runs.
- Porter: `sent_transactions`, `event_search`, ignored tables, `user_directory_stream_pos`, sequences and progress
  display.
- PortSetup.SetupKeepsAppendOnly: set up one table after another; the interleaving is in `PortSession`.
- PortWaves.RunWaves: the tables of a wave are copied at the same time by the original; here a wave is a set.
- PortSession.SessionsAreSafe: a table may be copied as soon as those it references are finished, which allows more
  than waiting for the whole wave.
- Notifier: the waiting loop itself, timeouts other than as the removal of a listener, replication, federation, pushers
  and modules. On the heap a stream whose registration was displaced, or that expired while its user was busy, is not
  followed; `NotifierRuns` follows it.
- NotifierRuns.AttentiveExactly: one user; a new position and the news of it are one step, and so are a membership
  change of the user and its news.
- StreamTokens: tokens for historic events, and reading and writing tokens as text.
- Visibility: calling the per-user filter for events that are not sent to clients (it then always fails, since
  retention policies are never read), and the filter for other servers.
- Visibility.FiltersAgree: not stated for events that the caller asks to include or that an administrator asked to see.
