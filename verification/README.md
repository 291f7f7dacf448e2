# Proofs about the Atlantic Express backend

Each module models one part of the repository whose correctness does not show
in any single handler, and proves what that part is for. Tables are maps and
sequences, files are values of a few paths, and a handler works on them as the
source does: the class methods follow the source's statements and are proved
equal to specification functions, and the lemmas are about runs of those
functions, for every input and every order of calls.

- `social_locks.dfy`: direct chat, blocks and friendships as a locking protocol.
  Handlers are statement lists run by interleaved processes under READ COMMITTED,
  with row and advisory locks held to the end of the transaction.
  `social_commits.dfy` says what each handler's commit changes.
- `chat_store.dfy`: retry-safe messages, the room revision and the 304 answer.
- `town_hall.dfy`: one Town Hall room with its seats, applications, offers and
  the hand-off into a direct chat.
- `route_files.dfy`, `release_controller.dfy`: the replica route on the host and
  the controller that reconciles it, operation by operation, with faults and stops.
- `fulfillment.dfy`, `manifest_dispatch.dfy`: merchant fulfilment, bulk transitions
  and manifests, and which manifests can still be dispatched.
- `money.dfy`, `payments.dfy`: quote totals over exact reals, and settlement under
  repeated and interleaved webhooks, verifications and reconciliations.
- `discovery_rank.dfy`, `discovery_events.dfy`, `discovery_stall.dfy`: the rails of
  a feed, event counters behind a deduplication table that is purged, and the same
  with other requests between a batch's check and its transaction. They share
  `discovery.dfy`.
- `delivery_areas.dfy`: the area normaliser that runs twice on one slice, and the
  fee lookup that has to agree with an SQL ordering.
- `pagination.dfy`: keyset cursors, both page forms, and walks along cursors.
- `identity.dfy`: linking Privy subjects to users.
- `arrivals.dfy`: load generator accounting and its percentile.
- `town_hall_answers.dfy`, `release_answers.dfy`, `fulfillment_answers.dfy`,
  `payment_answers.dfy`, `area_answers.dfy`, `identity_answers.dfy`: for each call of
  these modules, when it goes through and exactly what it then changes, stated on the
  rows, texts and fields themselves.
- `basics.dfy`, `text.dfy`, `sorting.dfy`: shared value types, ASCII text in the
  manner of Go's strings package, with lemmas for its letters, white space, numbers
  and UUIDs (`CaseOfLetters`, `CaseOfOthers`, `CapitalsAre`, `HexDigitsAre`,
  `TrimmedOff`, `DecimalRoundTrip`, `UuidsAre`), and the stable sort.

Calls into other services, clocks, random identifiers and database faults are
inputs of a step. A hash is taken to be injective. Times are integers.

Where the code does less than its comments or its callers suggest, the code is
followed and the exact condition is proved:

- A failed change is meant to leave no replica route and automation off. That
  depends on the unlinks of the except clause and on which of the earlier unlinks
  failed (`ReleaseController.FailedChangeIsClean`, `HandlerFailureKeepsRoute`).
- Deduplication keys are kept for 26 hours, which covers a day of receipts valid
  for two hours with a single clock tick to spare. Receipts up to 30 seconds in the
  future are accepted too, and the source allows two seconds between the check of a
  receipt and the transaction that counts it. An identity can be counted twice
  exactly when the lead of an issuing clock and that time come to two ticks or more
  (`DiscoveryStall.OnceIffWithinOneTick`; `DiscoveryEvents.OnceIffNoSkew` for check
  and transaction at one moment).
- An admitted Town Hall application need not have a seat; it loses it exactly when
  its user is approved for a second provider (`TownHall.AdmittedMayLoseSeat`,
  `AdmittedKeepSeatsIff`).
- The settlement row is keyed by the order id as the reference spells it, while
  manifests look it up in lower case (`Payments.LedgerKeyFoundIff`,
  `SpellingDecidesKey`, `ManifestDispatch.SpeltOrderNeverManifested`).
- Creating a product normalises its areas twice, and the second pass moves prices
  with half-cent fees, or refuses them (`DeliveryAreas.SecondPass`).
- The duplicate check for areas joins names with a bar, so that crossed pairs of
  different places are refused (`DeliveryAreas.DuplicateIff`, `CrossedPairIsRefused`).
- A manifest can become impossible to dispatch: when a member was sent on its way by
  itself, or when a single call used the manifest's event key for it
  (`ManifestDispatch.CanBeSentIffFree`, with a run from empty tables for each).

## Model

| member | source | states |
|---|---|---|
| `SocialLocks.BlockedNeverFriends` | internal/controllers/community_controller.go:209-339 | in every interleaving of all chat, friend and block handlers, a blocked pair has no pending or accepted connection |
| `SocialLocks.NoDirectMessageWhileBlocked` | internal/controllers/community_controller.go:429-465 | any step of any interleaved run only appends messages, and a direct message it commits has its pair unblocked just before and just after the commit |
| `SocialLocks.OneMessagePerReference` | internal/controllers/community_controller.go:689-708 | however sends interleave, one (sender, client reference) never has two stored messages |
| `SocialLocks.RunKeepsInv` | internal/controllers/community_controller.go:209-465 | every statement, commit and rollback of every handler keeps locks exclusive, each process's established facts true, and blocked pairs declined |
| `SocialLocks.CommittedBlock` | internal/controllers/community_controller.go:301-339 | when a commit makes a block appear, it holds the pair lock and the direct room row (or no room exists) and declines the connection in the same commit |
| `SocialLocks.CommitKeepsSafe` | internal/controllers/community_controller.go:340-343 | what one process established about an unblocked pair survives the commit of any other process |
| `SocialLocks.CommitPublishesUnblocked` | internal/controllers/community_controller.go:633-688 | a process at its commit publishes no direct message to a pair that is blocked before or after that commit |
| `SocialLocks.LocksRise` | internal/controllers/community_town_hall_controller.go:530-617 | every handler takes hall room, pair, direct room, connection row and message key in strictly rising order |
| `SocialLocks.WaitsAlwaysRise` | internal/controllers/community_controller.go:340-465 | in every reachable state a process waits only for one whose own next lock ranks higher |
| `SocialLocks.NoWaitingCycle` | internal/controllers/community_controller.go:340-465 | no interleaving reaches a ring of processes waiting for each other |
| `SocialLocks.NoDeadlock` | internal/controllers/community_controller.go:340-465 | in every reachable state with unfinished processes one of them is not waiting |
| `SocialCommits.EveryCommitDoesItsWork` | internal/controllers/community_controller.go:209-465 | in every run the step that ends one of the nine handlers without a rollback changes exactly the row that handler is for, under the conditions it is for, and every other step leaves the tables alone |
| `SocialCommits.ReplyAnswersTheOther` | internal/controllers/community_controller.go:257-300 | a reply that commits found a pending request of the other user and leaves it accepted or declined as its caller chose, with the same requester and nothing else changed |
| `SocialCommits.FriendsWhenChecked` | internal/controllers/community_controller.go:390-425 | whoever opens a direct chat was an accepted friend, and unblocked, at a moment after asking for it |
| `SocialCommits.AloneCommitsIff` | internal/controllers/community_controller.go:209-465 | a handler that runs alone gets from its start to its commit exactly when the tables meet its conditions |
| `SocialCommits.WaitsIff` | internal/controllers/community_controller.go:209-465 | a handler waits exactly while another one holds the lock its next statement asks for |
| `SocialCommits.EveryStepMovesLocks` | internal/controllers/community_controller.go:209-465 | a handler begins with no lock, keeps what it holds and gives it back at its commit or rollback; nobody else's locks change |
| `ChatStore.NotModifiedIsSafe` | internal/controllers/community_controller.go:553-632 | a reader that saw the revision before its list, and meets the same revision later, still holds the current message list: answering 304 is safe |
| `ChatStore.ResendIsIdempotent` | internal/controllers/community_controller.go:689-708 | after any other calls a resend with the same sender, reference and content answers the first id and changes nothing; other content or another room is refused |
| `ChatStore.FreshMessageRaisesRevision` | internal/controllers/community_controller.go:633-708 | a post changes its room's list exactly when it is new, and then raises that room's revision by one and no other |
| `ChatStore.PostAnswers` | internal/controllers/community_controller.go:633-708 | a post is answered exactly when its room exists, its sender may write there and its reference is free for this content; otherwise it is refused for the first of these, and nothing changes |
| `ChatStore.RoomCallsAnswer` | internal/controllers/community_controller.go:377-389 | opening a room adds it at revision zero, and a membership change raises its own revision by one |
| `ChatStore.RunGrows` | internal/controllers/community_controller.go:553-708 | over any run revisions never fall, stored messages stay, and equal revisions mean equal lists |
| `ChatStore.Store.InsertSharedMessage` | internal/controllers/community_controller.go:689-708 | the conditional insert refines its specification: new row and raised revision, replay of the same content, or conflict |
| `ChatStore.Store.Send` | internal/controllers/community_controller.go:633-688 | sending refines its specification, including the missing room and the refused member |
| `ChatStore.Store.EnsureDirect` | internal/controllers/community_controller.go:377-389 | the direct room exists afterwards, and nothing else changes |
| `TownHall.SeatsOverAnyRun` | internal/controllers/community_town_hall_controller.go:278-425 | from a new room, over any run of the seven handlers: at most ten active provider seats, each with an admitted application, no provider seated twice, and a closed room is quiet |
| `TownHall.ClosedForGood` | internal/controllers/community_town_hall_controller.go:497-529 | a closed room never changes again and never reopens |
| `TownHall.AdmittedMayLoseSeat` | internal/controllers/community_town_hall_controller.go:383-400 | a concrete run after which an admitted application has no seat: approving a second provider re-points the user's row |
| `TownHall.AdmittedKeepSeatsIff` | internal/controllers/community_town_hall_controller.go:278-529 | from a new room, over any run: every admitted provider has a seat at every moment exactly when no approval goes through for a requester who sits there for another provider |
| `TownHall.StepKeepsSeatsIff` | internal/controllers/community_town_hall_controller.go:278-529 | one step of any handler leaves somebody admitted without a seat exactly when it is such an approval |
| `TownHall.HandoffSentOnce` | internal/controllers/community_town_hall_controller.go:530-630 | choosing an offer again, after any other calls, sends no second hand-off unless it stands with another price or other terms, and if answered names the same chat |
| `TownHall.StepKeepsValid` | internal/controllers/community_town_hall_controller.go:264-529 | each handler keeps the seat, admission and quiet-when-closed invariant, and a closed room ignores all of them |
| `TownHallAnswers.ApplyAnswers` | internal/controllers/community_town_hall_controller.go:278-332 | an application goes through exactly for somebody other than the owner, eligible, with the room open and a seat free, and opens a new or closed application of that provider |
| `TownHallAnswers.ApproveAnswers` | internal/controllers/community_town_hall_controller.go:333-425 | an approval goes through exactly for the owner, an independent and paid provider, a pending request of somebody else and a free seat; it seats the requester and admits the application |
| `TownHallAnswers.RemoveAnswers` | internal/controllers/community_town_hall_controller.go:390-425 | a removal takes the seats and the application of an admitted provider and of no other |
| `TownHallAnswers.DeclineAnswers` | internal/controllers/community_town_hall_controller.go:333-389 | a decline goes through exactly for the owner and a pending application, and closes it |
| `TownHallAnswers.OfferAnswers` | internal/controllers/community_town_hall_controller.go:426-496 | an offer goes through exactly from an active provider seat under a new reference, or the same reference and text; it is stored with its first identifier and posted once |
| `TownHallAnswers.OfferTextTells` | internal/controllers/community_town_hall_controller.go:464-467 | the posted text of an offer tells its price and its terms |
| `TownHallAnswers.SummaryTells` | internal/controllers/community_town_hall_controller.go:600-606 | the hand-off text of a valid offer, here without the title, unit and quantity of the request, is never cut and tells its price and its terms |
| `TownHallAnswers.ChoiceAnswers` | internal/controllers/community_town_hall_controller.go:530-630 | a choice goes through exactly for the owner of an open room, an independent seated peer that is not blocked and a free hand-off reference; it opens the chat, posts the hand-off, notes the choice and shuts the room if asked |
| `TownHallAnswers.OtherChoicesAnswer` | internal/controllers/community_town_hall_controller.go:560-576 | without a seated offerer nothing is chosen, and a closed room repeats its saved choice |
| `TownHallAnswers.CloseAnswers` | internal/controllers/community_town_hall_controller.go:497-529 | closing goes through exactly for the owner of an open room and leaves no active provider row and no live application |
| `TownHall.HallRoom.HallApply` | internal/controllers/community_town_hall_controller.go:278-332 | applying refines its specification, with the owner, closed, full and already-applied cases |
| `TownHall.HallRoom.HallApprove` | internal/controllers/community_town_hall_controller.go:333-390 | approving re-checks seats, payment and state under the lock, seats the requester and admits the application |
| `TownHall.HallRoom.HallDecline` | internal/controllers/community_town_hall_controller.go:390-425 | declining closes a pending application and nothing else |
| `TownHall.HallRoom.HallRemove` | internal/controllers/community_town_hall_controller.go:394-425 | removing clears the provider's seat and application together, and repeats harmlessly |
| `TownHall.HallRoom.HallOffer` | internal/controllers/community_town_hall_controller.go:426-496 | an offer is stored and posted once per reference, and refused for users without an active seat |
| `TownHall.HallRoom.CloseHallTx` | internal/controllers/community_town_hall_controller.go:497-508 | closing removes every provider seat and every pending or admitted application in one step |
| `TownHall.HallRoom.HallClose` | internal/controllers/community_town_hall_controller.go:509-529 | only the owner of an open, unexpired room closes it |
| `TownHall.HallRoom.HallChoose` | internal/controllers/community_town_hall_controller.go:530-630 | choosing opens the direct room, posts the hand-off and may close the hall; any refusal leaves no trace |
| `RouteFiles.RouteImpliesRecord` | scripts/replica-route.py:183-199 | wherever activations and rollbacks fail or stop, our live route file has a record with its exact path and digest |
| `RouteFiles.OneRollbackRecovers` | scripts/replica-route.py:108-124 | with no other writer at the path, from every stopping point of every run: if a record is left one rollback removes both files, and if none is left our route is not live |
| `RouteFiles.RecoversUnlessForeign` | scripts/replica-route.py:108-124 | with other writers racing for the path, from every stopping point of every run: without a record our route is not live, and with one a rollback removes both files exactly when the route is not another writer's with content of its own, which then stays for ever |
| `RouteFiles.ForeignRouteKept` | scripts/replica-route.py:108-122 | a route file whose content differs from the recorded one survives every run |
| `RouteFiles.ConfirmedIffTwoSlots` | scripts/replica-route.py:200-228 | the verification loop confirms exactly when an uninterrupted start of it reached two distinct replica slots |
| `RouteFiles.ActivationOutcome` | scripts/replica-route.py:133-234 | success means our file is live, recorded and seen through two slots; a failure whose undo works leaves neither file |
| `RouteFiles.ActivatesIff` | scripts/replica-route.py:155-234 | from absent files, activation returns with our file live, its record and the marker kept exactly when every operation works, nobody takes the path, and an uninterrupted start of at most twenty rounds reaches two distinct slots |
| `RouteFiles.PublishedLeaves` | scripts/replica-route.py:196-234 | after publication each of route, record and marker is gone exactly when the undo is reached and works up to it |
| `RouteFiles.UnpublishedLeaves` | scripts/replica-route.py:183-234 | before publication the record is dropped exactly when the process lives and can, and another writer's file stays |
| `RouteFiles.ActivationNeedsBothAbsent` | scripts/replica-route.py:154-156 | an activation that finds a route or a record touches nothing |
| `RouteFiles.RollbackLeaves` | scripts/replica-route.py:108-124 | rollback takes route, record and marker in this order, each exactly when the ones before it went |
| `RouteFiles.RollbackRefuses` | scripts/replica-route.py:108-118 | a record that is missing or names another path, or a route with other content, refuses the rollback |
| `RouteFiles.Host.RemoveRoute` | scripts/replica-route.py:108-124 | the removal refines rollback, operation by operation, for every fault |
| `RouteFiles.Host.UndoPublication` | scripts/replica-route.py:229-234 | the handler undoes a published route, or only the record |
| `RouteFiles.Host.VerifyHttps` | scripts/replica-route.py:200-228 | the loop over at most twenty rounds refines the verdict function |
| `RouteFiles.Host.Execute` | scripts/replica-route.py:133-234 | activation refines its specification, with every fault, stop and race |
| `ReleaseController.ActiveRouteIsJustified` | scripts/replica-release.py:170-210 | however reconcile ends, a live route of ours was there before and untouched, or was activated after a second snapshot judged aligned on the same commit |
| `ReleaseController.FailedChangeIsClean` | scripts/replica-release.py:192-210 | a failed change leaves no route of ours and automation off exactly when the handler's marker unlink works (or the undo of the new route removed the marker) and, if the old route could not be unlinked or the new one was published and could not be, the handler's route unlink works too |
| `ReleaseController.FailedActivation` | scripts/replica-route.py:183-234 | a failing activation leaves our route live exactly when it was published and its undo cannot unlink it |
| `ReleaseController.HandlerFailureKeepsRoute` | scripts/replica-release.py:205-210 | when the handler cannot unlink the marker, the old route stays live with automation armed |
| `ReleaseController.CommandsKeepOwned` | scripts/replica-release.py:170-265 | over any run of reconcile, install, pause, activation and rollback, with faults and stops, a live route of ours has its exact record |
| `ReleaseController.OnlyInstallArms` | scripts/replica-release.py:258-265 | automation that was off is on again only if some install in the run found our route live and the replicas aligned |
| `ReleaseController.PausedStaysDark` | scripts/replica-release.py:290-294 | after a pause, reconcile and rollback never make the route live or arm automation |
| `ReleaseController.AllMatchMeans` | scripts/replica-release.py:76-80 | the replica comparison holds exactly when every replica is healthy, on the API's image and has the expected settings |
| `ReleaseController.AlignedMeans` | scripts/replica-release.py:56-80 | an aligned verdict means two healthy replicas on the API's image with its settings up to overrides, equal commits, and a connection budget that fits |
| `ReleaseAnswers.VerdictIff` | scripts/replica-release.py:56-80 | each verdict holds exactly for the containers it is meant for: health, commits, storage settings, policy settings, replica count and pools, and the replicas' images and settings |
| `ReleaseAnswers.BudgetIff` | scripts/replica-pilot.py:65-84 | the connection budget is refused exactly when a pool setting is not a number from 2 to 1000 or the pools do not fit beside the reserved connections |
| `ReleaseAnswers.ReleaseFits` | scripts/replica-pilot.py:74-84 | with an aligned release the API, the worker, both replicas and a third being exchanged stay 30 connections below the database maximum |
| `ReleaseAnswers.ReplicaIsQuiet` | scripts/replica-release.py:29-42 | a replica that follows the API runs no migrations and no inline workers |
| `ReleaseAnswers.WorkerBehindTakesRouteOff` | scripts/replica-release.py:182-189 | with an API that works and a worker that is unhealthy, on another commit or on other storage, a live route is gone exactly when its unlink works, the outcome is to wait exactly when the whole fallback works, and automation stays on |
| `ReleaseAnswers.WorkerBehindKeepsRest` | scripts/replica-release.py:180-189 | without a live route, or with an original API that is not ready, a worker that is behind changes no file |
| `ReleaseAnswers.UndecidableGoesDark` | scripts/replica-release.py:174-181 | when the release cannot be decided, the live route and the marker go, each exactly when the operations up to it work, and the error is raised |
| `ReleaseAnswers.NothingToDo` | scripts/replica-release.py:182-191 | an unhealthy API and an aligned live release leave all files alone |
| `ReleaseAnswers.NothingSeen` | scripts/replica-release.py:170-173 | switched-off automation and containers that cannot be seen leave all files alone |
| `ReleaseAnswers.CommandsGoOn` | scripts/replica-release.py:170-294 | a run of commands is each of them in turn, on the files the ones before it left |
| `ReleaseAnswers.ChangeUpdatesIff` | scripts/replica-release.py:192-204 | a change ends with the new route live exactly when falling back, refreshing and the second look work, nobody paused and the activation goes through; after a pause it ends disabled with no route |
| `ReleaseAnswers.NeverCutAlive` | scripts/replica-release.py:174-213 | a reconcile is cut short only by a stop of the process; every other failure is reported, after the handler |
| `ReleaseAnswers.InstallAnswers` | scripts/replica-release.py:219-265 | an installation arms automation exactly when it finds a live route of a release in step and nothing fails; a failure while arming disarms |
| `ReleaseAnswers.PauseAnswers` | scripts/replica-release.py:290-294 | a pause removes the marker first and then an owned route, and tells how far it came |
| `ReleaseController.Controller.ReconcileNow` | scripts/replica-release.py:170-210 | reconcile refines its specification on the host, with every fault and stop |
| `ReleaseController.Controller.TryChange` | scripts/replica-release.py:192-204 | the guarded change section refines its specification |
| `ReleaseController.Controller.HandleFailure` | scripts/replica-release.py:205-210 | the except clause turns automation off, then puts traffic back |
| `ReleaseController.Controller.InstallNow` | scripts/replica-release.py:219-265 | install arms automation last and disarms on any failure |
| `ReleaseController.Controller.PauseNow` | scripts/replica-release.py:290-294 | pause removes the marker and then an owned route |
| `Fulfillment.LogsOverAnyRun` | internal/controllers/merchant_fulfillment_controller.go:43-74 | in every run mixing single, bulk and manifest steps, each event log is an unbroken path from pending in its route graph, its keys are unique, and the version is one plus its length |
| `Fulfillment.StageNeverGoesBack` | internal/controllers/merchant_fulfillment_controller.go:76-96 | between any two moments of a history the log is extended, the version grows by the number of new events, and tracking stage, order status and progress never go back |
| `Fulfillment.OrderStatusFollowsProgress` | internal/controllers/merchant_fulfillment_controller.go:76-96 | in every history a paid order's status and stage say exactly how far its fulfilment is |
| `Fulfillment.DispatchedMembersAreOnTheRoad` | internal/controllers/merchant_fulfillment_controller.go:494-553 | every order of a dispatched or completed manifest is at or past dispatched_from_origin |
| `Fulfillment.OneManifestPerOrder` | internal/controllers/merchant_fulfillment_controller.go:358-369 | an order in a manifest stays in that one manifest for ever |
| `ManifestDispatch.CanBeSentIffFree` | internal/controllers/merchant_fulfillment_controller.go:456-562 | in every reachable state an open or closed manifest can be brought to dispatched by some further calls exactly when each member is at most processing and its log does not hold the manifest's own event key |
| `ManifestDispatch.UsedKeyBlocksForEver` | internal/controllers/merchant_fulfillment_controller.go:530-541 | a run from empty tables: one single call that uses the manifest's event key as its idempotency key, and whatever follows the manifest is never dispatched |
| `ManifestDispatch.EarlyDispatchBlocksForEver` | internal/controllers/merchant_fulfillment_controller.go:498-529 | a run from empty tables: three single calls send the order on its way, and whatever follows its manifest is never dispatched |
| `ManifestDispatch.HeldNeverSent` | internal/controllers/merchant_fulfillment_controller.go:498-541 | a member that is on the road or whose log holds the key keeps its manifest from dispatched and completed in every run |
| `ManifestDispatch.SpeltOrderNeverManifested` | internal/controllers/merchant_fulfillment_controller.go:358-369 | an order whose ledger row spells its id differently never joins a manifest |
| `ManifestDispatch.RunKeepsJoined` | internal/controllers/merchant_fulfillment_controller.go:358-374 | over any run members are paid under their canonical key and every manifest has a member |
| `Fulfillment.BulkIsSinglesInAnyOrder` | internal/controllers/merchant_fulfillment_controller.go:188-314 | a bulk call over distinct orders ends as its single calls do in any order, fails exactly when one of them would, and then changes nothing |
| `Fulfillment.BulkMovesTheSet` | internal/controllers/merchant_fulfillment_controller.go:202-248 | the bulk transaction is all-or-nothing and equals moving every order at once from its own row |
| `Fulfillment.StepKeepsInv` | internal/controllers/merchant_fulfillment_controller.go:169-562 | every operation keeps logs, mapped stages and manifest membership consistent, and loses nothing |
| `Fulfillment.EdgeGoesForward` | internal/controllers/merchant_fulfillment_controller.go:43-96 | every allowed transition advances progress and never lowers the mapped stage or order status |
| `FulfillmentAnswers.MovesOnlyWhenSettled` | internal/controllers/merchant_fulfillment_controller.go:217-219 | in any history, an operation that moves an order finds it paid and, across the border, its settlement released |
| `FulfillmentAnswers.UnsettledIsRefused` | internal/controllers/merchant_fulfillment_controller.go:272-274 | an unsettled cross-border order refuses every single call and every bulk call with it, and nothing changes |
| `FulfillmentAnswers.SingleAnswers` | internal/controllers/merchant_fulfillment_controller.go:136-314 | a single call moves its order exactly for a well-formed request, a workable order, a new key, the current version and a step of its road, with its log, stage and status as that step says; it replays a used key and otherwise refuses |
| `FulfillmentAnswers.BulkAnswers` | internal/controllers/merchant_fulfillment_controller.go:169-249 | a bulk call goes through exactly when it names 1 to 200 distinct orders by UUIDs, with a known status, a key and versions from 1, and every item moves; then those rows and no others have moved |
| `FulfillmentAnswers.CreateAnswers` | internal/controllers/merchant_fulfillment_controller.go:339-374 | a manifest is created exactly for 1 to 500 distinct UUIDs that are all paid, settled, the seller's, early on the cross-border road and in no manifest, and then holds exactly those |
| `FulfillmentAnswers.AdvanceAnswers` | internal/controllers/merchant_fulfillment_controller.go:471-562 | in every consistent state a manifest call advances exactly for its own seller, a new key, the current version and an allowed edge, and dispatches only when it has members and all of them stand ready |
| `FulfillmentAnswers.AdvanceEffect` | internal/controllers/merchant_fulfillment_controller.go:530-557 | an advance writes its event and version, and a dispatch sends every member and nobody else |
| `Fulfillment.MerchantDesk.TransitionOrder` | internal/controllers/merchant_fulfillment_controller.go:251-314 | the single transition refines its specification: missing or unpaid, unsettled import, replay, stale version, wrong edge, move |
| `Fulfillment.MerchantDesk.TransitionMerchantOrder` | internal/controllers/merchant_fulfillment_controller.go:136-167 | the single endpoint refuses an empty status, a version below one and a key that is empty or over 160 characters, and otherwise transitions |
| `Fulfillment.MerchantDesk.CheckBulk` | internal/controllers/merchant_fulfillment_controller.go:180-194 | the request check accepts exactly 1 to 200 distinct UUIDs with versions, a status, and a key of 1 to 100 characters |
| `Fulfillment.MerchantDesk.MoveItem` | internal/controllers/merchant_fulfillment_controller.go:202-243 | the statements for one order inside the bulk transaction move it exactly when it may move |
| `Fulfillment.MerchantDesk.BulkTransition` | internal/controllers/merchant_fulfillment_controller.go:169-249 | the bulk loop commits all moves or none |
| `Fulfillment.MerchantDesk.CreateManifest` | internal/controllers/merchant_fulfillment_controller.go:339-374 | a manifest is created with all of its 1 to 500 distinct orders, each eligible and in no other manifest, or not at all |
| `Fulfillment.MerchantDesk.AllReady` | internal/controllers/merchant_fulfillment_controller.go:498-526 | the read loop passes exactly when every member row is processing and settled |
| `Fulfillment.MerchantDesk.MoveMembers` | internal/controllers/merchant_fulfillment_controller.go:530-549 | the member loop dispatches all rows, or none when an event key is taken |
| `Fulfillment.MerchantDesk.TransitionManifest` | internal/controllers/merchant_fulfillment_controller.go:456-562 | the manifest transition refines its specification, with replay, stale version and dispatch of all members |
| `Money.RoundMoneyLaws` | internal/controllers/order_controller.go:735-737 | for non-negative amounts rounding is monotone, idempotent and within half a cent |
| `Money.WholeCentsSurviveIffNonNegative` | internal/controllers/order_controller.go:735-737 | a whole number of cents survives rounding exactly when it is not negative |
| `Money.SellerNetsItemsAndDelivery` | internal/controllers/payment_controller.go:829-830 | for every discount up to the fee the grand total is items plus delivery plus charged fee, and the seller nets exactly items plus delivery |
| `Money.UndiscountedFee` | internal/controllers/order_controller.go:186-193 | without a discount the fee is within half a cent of one percent |
| `Money.BasketTotals` | internal/controllers/order_controller.go:141-219 | every basket of sane offers has an exact grand total, a one-percent fee and an exact seller net |
| `Money.DiscountIsCapped` | internal/controllers/xp_redemption.go:13-22 | the points discount is never negative and never above the rounded fee |
| `Money.SumsArePriced` | internal/controllers/order_controller.go:178-179 | items plus delivery is the sum of unit price times quantity, and delivery that of fee times quantity |
| `Money.FaultIff` | internal/controllers/order_controller.go:141-174 | a line is at fault for its quantity, else for a missing product, else for another seller or route |
| `Money.CleanIff` | internal/controllers/order_controller.go:141-174 | a basket is quoted exactly when every line has a quantity and a product and all are of one seller and route |
| `Money.WindowIff` | internal/controllers/order_controller.go:175-226 | the promised window is the longest one of the lines, or 3 days locally and 21 across the border |
| `Money.DiscountIff` | internal/controllers/xp_redemption.go:13-22 | points pay whole naira of a naira fee of at least one, as many as there are up to the rounded fee, and nothing else |
| `Money.QuoteCheckout` | internal/controllers/order_controller.go:136-225 | the basket loop computes those totals and the longest delivery window, or the error of the first faulty line |
| `Payments.ParseUndoesNew` | internal/controllers/payment_controller.go:961-963 | parsing a reference undoes building it exactly for order ids that are UUIDs |
| `Payments.ParsedMeansBuilt` | internal/controllers/payment_controller.go:990-1004 | a reference parses to an order id exactly when it was built from that id |
| `Payments.PaidExactlyOnce` | internal/controllers/payment_controller.go:746-841 | after any interleaving of checkouts, webhooks, verifications and reconciliations: exactly the paid orders have a ledger row, each has one with the order's amounts, and sold counts grew by those orders' quantities once |
| `Payments.PaymentIsFinal` | internal/controllers/payment_controller.go:795-811 | an order leaves pending at most once; its payment time, reference and transaction never change afterwards |
| `Payments.AttemptIsFinal` | internal/controllers/payment_ledger.go:123-141 | an attempt's provider transaction id and payment time, once set, never change |
| `Payments.OtherReferenceChangesNothing` | internal/controllers/payment_controller.go:777-785 | however much later, a success under another reference of a paid order changes nothing |
| `Payments.RedeliveryChangesNoOrder` | internal/controllers/payment_controller.go:777-785 | delivering any success again for an order no longer pending leaves orders, sold counts and ledger alone and only fills in attempts |
| `Payments.TransactionPaysOneOrder` | internal/controllers/payment_ledger.go:123-141 | no provider transaction pays for two orders |
| `Payments.PaidByACoveringCharge` | internal/controllers/payment_controller.go:774-776 | an order becomes paid only by a settled charge with its reference, in its currency, and covering its amount |
| `Payments.LedgerKeyFoundIff` | internal/controllers/payment_controller.go:829-832 | the settlement row is found under the order's canonical key exactly when the reference spelt the order id in lower case |
| `Payments.SpellingDecidesKey` | internal/controllers/payment_controller.go:829-832 | from an empty shop, for any UUID text: placing an order, recording an attempt whose reference spells its id that way and settling it pays the order, and its canonical key is found exactly when the text is lower case |
| `Payments.LateFailureOnlyRelabels` | internal/controllers/payment_ledger.go:100-121 | a late checkout failure relabels a paid attempt as failed but unpays neither it nor its order |
| `Payments.LedgerNetMatchesQuote` | internal/controllers/payment_controller.go:829-830 | an order carrying its quoted totals is credited to the seller as exactly items plus delivery |
| `Payments.RunKeeps` | internal/controllers/payment_controller.go:358-841 | every step keeps attempts, orders, ledger and sold counts consistent and extends them only |
| `PaymentAnswers.SettleAnswers` | internal/controllers/payment_controller.go:746-841 | a charge is settled exactly when nothing fails, it covers the order, its attempt accepts the transaction, and the order is pending and seller-managed or was paid by this reference; a first settlement pays the order, counts its units and writes one ledger row |
| `PaymentAnswers.WebhookAnswers` | internal/controllers/payment_controller.go:378-427 | a webhook moves money only when its event reports a completed charge and the gateway itself says successful or succeeded; with any other answered status it replies accepted and its receipt is ignored |
| `PaymentAnswers.WebhookSettles` | internal/controllers/payment_controller.go:397-427 | it is answered as settled exactly when the order its verified reference names is settled, and then changes what that settlement changes |
| `PaymentAnswers.VerificationAnswers` | internal/controllers/payment_controller.go:430-468 | buyer verification changes the tables only for an order of the caller when the gateway says paid and names that order; other answered statuses are only acknowledged |
| `PaymentAnswers.ReconciliationAnswers` | internal/controllers/payment_controller.go:473-530 | reconciliation changes the tables under the same conditions, and refuses a reference the order was not checked out with |
| `PaymentAnswers.AttemptAnswers` | internal/controllers/payment_ledger.go:40-79 | an attempt adds one waiting row for a pending order and a new reference, and changes no other row |
| `PaymentAnswers.BindAnswers` | internal/controllers/payment_controller.go:286-292 | the checkout notes its reference on the order while it is pending, and on no other |
| `PaymentAnswers.PlaceAnswers` | internal/controllers/order_controller.go:238-240 | a new order starts pending and unpaid, and changes no other |
| `PaymentAnswers.MarksAnswer` | internal/controllers/payment_ledger.go:100-121 | a mark changes the status of its own attempt and nothing else |
| `PaymentAnswers.ReceiptsAnswer` | internal/controllers/payment_ledger.go:203-232 | receiving an event opens a new or failed receipt and leaves every other as it is |
| `PaymentAnswers.EventKeyIs` | internal/controllers/payment_ledger.go:203-211 | an event is known by its three parts, or by its payload exactly when they hold nothing but colons |
| `Payments.PaymentController.RecordAttempt` | internal/controllers/payment_ledger.go:40-79 | an attempt row is added only for a pending order and an unused reference |
| `Payments.PaymentController.SettleLedger` | internal/controllers/payment_ledger.go:123-141 | the conditional update fills the transaction id and payment time once, or refuses |
| `Payments.PaymentController.SettleOrderPayment` | internal/controllers/payment_controller.go:746-841 | settlement refines its specification, with every refusal leaving the tables as they were |
| `Payments.PaymentController.BeginWebhook` | internal/controllers/payment_ledger.go:203-232 | opening a receipt reopens only a failed one and reports the closed ones as done |
| `Payments.PaymentController.FlutterwaveWebhook` | internal/controllers/payment_controller.go:358-428 | the webhook is a sequence of primitive steps with the reply the source gives |
| `Payments.PaymentController.VerifyFlutterwavePayment` | internal/controllers/payment_controller.go:430-468 | buyer verification is a sequence of primitive steps with the reply the source gives |
| `Payments.PaymentController.AdminReconcile` | internal/controllers/payment_controller.go:473-530 | admin reconciliation is a sequence of primitive steps, refusing a reference other than the stored one |
| `Sorting.SortOrders` | internal/controllers/discovery_controller.go:132-137 | the stable sort the ranking relies on puts any sequence in order |
| `Sorting.SortIsStable` | internal/controllers/discovery_controller.go:132-137 | values that compare equal keep their order |
| `DiscoveryRank.RailIsFair` | internal/controllers/discovery_controller.go:113-161 | for distinct candidates and a positive limit: at most that many cards, non-increasing score, one per business; an eligible business not shown never outranks a card of a full rail, and a short rail shows all of them |
| `DiscoveryRank.CardIsFirstOfItsProvider` | internal/controllers/discovery_controller.go:113-161 | the card of a business is the first of its eligible items by position in the ranked sequence |
| `DiscoveryRank.NoLimitShowsAll` | internal/controllers/discovery_controller.go:155-158 | a limit below one is never reached, so every eligible business is shown |
| `DiscoveryRank.PromotedArePaid` | internal/controllers/discovery_controller.go:141-156 | a promoted card is of a paying listing that asked for it, and only promoted cards are labelled |
| `DiscoveryRank.RelevanceFirst` | internal/controllers/discovery_controller.go:132-137 | a higher score stands first, and equal scores go by the smaller rotation |
| `DiscoveryRank.FeedShows` | internal/controllers/discovery_controller.go:287-290 | a feed shows promotions and then similar listings, or recommended ones without a source |
| `DiscoveryRank.RailLimitIs` | internal/controllers/discovery_controller.go:296-310 | six cards, or for promotions the carousel's number or a quarter of the candidates from 1 to 3 |
| `DiscoveryRank.ListingTextIsInjective` | internal/controllers/discovery_controller.go:145-150 | the key text tells listings apart |
| `DiscoveryRank.RailsShareNothing` | internal/controllers/discovery_controller.go:286-322 | no listing appears in two rails of a feed |
| `DiscoveryRank.EveryRailIsFair` | internal/controllers/discovery_controller.go:286-322 | every rail of a feed is fair to what the earlier rails left over, within its own limit |
| `DiscoveryRank.RankDiscovery` | internal/controllers/discovery_controller.go:113-161 | the sort-and-greedy loop with its provider and listing maps computes the specified rail |
| `DiscoveryRank.BuildRail` | internal/controllers/discovery_controller.go:291-311 | one rail is ranked from the unused candidates, within the limit of its placement, and shares nothing with earlier rails |
| `DiscoveryRank.BuildRails` | internal/controllers/discovery_controller.go:286-322 | the placement loop computes the specified rails |
| `DiscoveryEvents.CountedAtMostOnce` | internal/controllers/discovery_controller.go:387-393 | with issuing clocks at most one tick ahead, over any run of feeds, reports, waits and purges, each session, listing, placement, event type and day is counted at most once, and every kept counter equals its counted events |
| `DiscoveryEvents.CountedIffNew` | internal/controllers/discovery_controller.go:387-393 | a valid event is counted exactly when it was never counted before |
| `DiscoveryEvents.ValidMeansOpen` | internal/controllers/discovery_controller.go:182-184 | a valid receipt is always reported before 26 hours after its day began |
| `DiscoveryEvents.ValidIff` | internal/controllers/discovery_controller.go:182 | a receipt is accepted from 30 seconds before its second until two hours after it |
| `DiscoveryEvents.CountAnswers` | internal/controllers/discovery_controller.go:388-393 | an event whose key is new holds it for 26 hours and raises its own counter of its own day by one, and no other |
| `DiscoveryEvents.BatchAnswers` | internal/controllers/discovery_controller.go:351-402 | a batch is taken exactly when it has 1 to 25 inputs with valid receipts and nothing fails |
| `DiscoveryEvents.PurgeAnswers` | internal/controllers/discovery_controller.go:479-486 | a purge drops exactly the keys and counters it was given, which are expired or older than 90 days and at most 1000 of each |
| `DiscoveryEvents.OnceIffNoSkew` | internal/controllers/discovery_controller.go:182-184 | for every number of clock ticks: all runs whose issuing clocks lead by at most that many count each identity at most once exactly when it is at most one |
| `DiscoveryEvents.SkewedRunCountsTwice` | internal/controllers/discovery_controller.go:479-486 | the concrete run: with a lead of two ticks a key is purged in the last tick its day is open, and the day is counted twice |
| `DiscoveryEvents.KeyTextIsInjective` | internal/controllers/discovery_controller.go:389-390 | the concatenated key text names one identity only |
| `DiscoveryEvents.DiscoveryDesk.ReadReceipt` | internal/controllers/discovery_controller.go:169-186 | the receipt check accepts exactly signed receipts within the two-hour window and the clock tolerance |
| `DiscoveryEvents.DiscoveryDesk.SignReceipt` | internal/controllers/discovery_controller.go:311-316 | a card's receipt carries the second of this desk's clock and becomes acceptable |
| `DiscoveryEvents.DiscoveryDesk.CheckInputs` | internal/controllers/discovery_controller.go:359-379 | a batch is refused as a whole when any receipt is not valid, and short impressions are dropped |
| `DiscoveryEvents.DiscoveryDesk.InsertEvents` | internal/controllers/discovery_controller.go:380-402 | the transaction counts the checked events in turn, and a fault undoes everything |
| `DiscoveryEvents.DiscoveryDesk.ReportEvents` | internal/controllers/discovery_controller.go:351-402 | check and transaction together, at one moment, refine the batch specification |
| `DiscoveryEvents.DiscoveryDesk.CountEvent` | internal/controllers/discovery_controller.go:388-393 | the upsert raises one counter exactly when the key is new |
| `DiscoveryStall.OnceIffWithinOneTick` | internal/controllers/discovery_controller.go:359-402 | with other requests and purges between check and transaction, for every lead of the issuing clocks and every time limit between the two: each identity is counted at most once in every run exactly when lead and limit together are at most one tick |
| `DiscoveryStall.StalledRunCountsTwice` | internal/controllers/discovery_controller.go:387-402 | for each lead from zero to two ticks a concrete run whose stall makes up the rest of two ticks, and which counts a day twice |
| `DeliveryAreas.NormaliseTwice` | internal/controllers/merchant_product_controller.go:205-212 | for whole-cent amounts an accepted list names each place once, a city only with a state, has item price plus fee equal to delivered price, and passes a second time unchanged |
| `DeliveryAreas.SecondPass` | internal/controllers/product_delivery_areas.go:70-115 | for submitted and base prices of whole cents, an accepted list passes a second time unchanged exactly when no area that was not linked has a half-cent fee; each such area is raised by one cent, and the list is refused for its price exactly when one of them is unlinked and unconfirmed in the base currency |
| `DeliveryAreas.RoundTripDrifts` | internal/controllers/product_delivery_areas.go:84-102 | for a whole-cent price and a fee below it, rounding the difference and adding the fee again misses the price, by one cent up, exactly for a half-cent fee |
| `DeliveryAreas.HalfCentFeeDrifts` | internal/controllers/product_delivery_areas.go:87-102 | one accepted area whose price the second pass raises from 10.02 to 10.03 |
| `DeliveryAreas.HalfCentFeeRefused` | internal/controllers/product_delivery_areas.go:102-105 | one accepted area in the base currency that the second pass refuses |
| `DeliveryAreas.LocationKeyTwice` | internal/controllers/product_delivery_areas.go:55-57 | a normalised place name stays as it is |
| `DeliveryAreas.KeysEqualIff` | internal/controllers/product_delivery_areas.go:110-114 | two keys are equal exactly for one place or a crossed pair, where one state runs on over a bar into what the other area puts before its city |
| `DeliveryAreas.DuplicateIff` | internal/controllers/product_delivery_areas.go:67-116 | a list with no other fault is refused as a duplicate exactly when two of its areas name one place or are a crossed pair |
| `DeliveryAreas.CrossedPairIsRefused` | internal/controllers/product_delivery_areas.go:110-114 | two areas in different places that the normaliser refuses as duplicates |
| `DeliveryAreas.NormaliseInPlace` | internal/controllers/product_delivery_areas.go:67-116 | the in-place loop rewrites the array as specified, including what is left after a refusal |
| `DeliveryAreas.NormaliseAreas` | internal/controllers/product_delivery_areas.go:59-66 | a missing list becomes the one Nigerian offer where that market exists |
| `AreaAnswers.MissingListAnswer` | internal/controllers/product_delivery_areas.go:60-66 | a missing list in the home market is accepted exactly for a positive price, as that price delivered everywhere in Nigeria and linked to it |
| `DeliveryAreas.NormaliseForCreate` | internal/controllers/merchant_product_controller.go:205-212 | creating normalises the submitted array and then normalises it again in place; with whole-cent prices the second pass is as `SecondPass` says, and with whole-cent fees too it equals the first pass alone and leaves accepted areas |
| `DeliveryAreas.CatalogDeliveryFee` | internal/controllers/product_delivery_areas.go:133-157 | the scan returns the fee of the first most specific match, or zero without a match |
| `DeliveryAreas.OneMatchPerLevel` | internal/controllers/product_delivery_areas.go:141-151 | on a normalised list at most one area matches at each level of detail |
| `DeliveryAreas.ScanAgreesWithSql` | internal/controllers/order_controller.go:156-161 | the scan ends on the one row that ordering by city and then state puts first |
| `DeliveryAreas.AcceptedListsAgree` | internal/controllers/catalog_controller.go:172 | the lookup and the query agree on every accepted list and every destination |
| `AreaAnswers.AreaAnswer` | internal/controllers/product_delivery_areas.go:72-109 | an area is refused for the first of wrong currency, place, length, amounts and unexpected price, and otherwise ends with its tidied names, the price it was judged by, the item price left after the fee, and its link |
| `AreaAnswers.ListAnswer` | internal/controllers/product_delivery_areas.go:67-116 | a list of 1 to 20 areas is accepted exactly when each area is and names another place than the ones before; otherwise the first that is not decides the refusal |
| `DeliveryAreas.CityWithoutStateDisagrees` | internal/controllers/product_delivery_areas.go:93-95 | were a city allowed without a state, they could differ |
| `Pagination.FixedTableWalk` | internal/controllers/admin_controller.go:122-161 | following cursors over a fixed table returns every row once and in order, and stops exactly at the page that reaches the end |
| `Pagination.InsertsDuringWalk` | internal/controllers/catalog_controller.go:182-222 | with rows inserted between requests no row is returned twice, order is kept, and a finished walk has returned every original row |
| `Pagination.CursorRoundTrip` | internal/controllers/promoted_cursor.go:32-60 | a handed-out cursor parses back to its row exactly for a real time and, when ranked, a rank from 0 to 3 |
| `Pagination.CursorIs` | internal/controllers/promoted_cursor.go:32-60 | a cursor is refused exactly without identifier or time; a ranked list reads its rank from 0 to 3, or the paid or free group of an older cursor |
| `Pagination.TokenIs` | internal/controllers/promoted_cursor.go:32-40 | a ranked cursor carries the rank and the paid mark that older readers go by |
| `Pagination.LimitIs` | internal/controllers/pagination.go:29-40 | 25 rows by default, and otherwise what was asked for up to 100 |
| `Pagination.OrderIs` | internal/controllers/admin_controller.go:122-135 | keys are ordered by rank, then time, then identifier |
| `Pagination.TrimPage` | internal/controllers/admin_controller.go:136-160 | the form that fetches one row more and trims gives the specified page and cursor |
| `Pagination.BreakPage` | internal/controllers/community_status_controller.go:36-51 | the form that stops at the row beyond the limit gives the same page and cursor |
| `Pagination.HandleList` | internal/controllers/pagination.go:29-66 | a request is clamped to 1 to 100 rows, refuses a cursor without id or time, and otherwise serves the page |
| `IdentityLinking.OneSubjectPerUser` | internal/controllers/identity_service.go:39-135 | over any run no user has two subjects, and emails stay unique |
| `IdentityLinking.SubjectNeverRepointed` | internal/controllers/identity_service.go:47-81 | a subject, once linked, names the same user for ever |
| `IdentityLinking.SignInLinksOnlyActive` | internal/controllers/identity_service.go:52-120 | a sign-in changes nothing, or resolves to a user that was active or is new, adding only its own link |
| `IdentityLinking.SignInMatchesEmail` | internal/controllers/identity_service.go:61-116 | the resolved user carries the claimed email, by whichever branch |
| `IdentityLinking.SignInAgain` | internal/controllers/identity_service.go:47-81 | signing in again resolves to the same user and adds nothing |
| `IdentityAnswers.SignInAnswers` | internal/controllers/identity_service.go:25-136 | in every reachable state: a claim that is not credible is unauthorized, a linked subject gets its own active user while the email is the same, a new subject gets the active untied user of its email or a new user, each with exactly the rows written; refusals change nothing |
| `IdentityAnswers.SignUpAnswers` | internal/controllers/auth_controller.go:134-146 | a password account is taken in exactly when nobody has its email, and stays inactive and untied until verified |
| `IdentityLinking.RunKeepsInv` | internal/controllers/identity_service.go:25-136 | every sign-in, sign-up and activation keeps links mutual and emails unique, and removes no link |
| `IdentityLinking.IdentityService.ResolvePrivy` | internal/controllers/identity_service.go:25-136 | the resolution refines its specification, branch by branch |
| `Arrivals.ScheduleArrivals` | cmd/capacity-lab/burst.go:42-76 | on every exit planned equals launched plus full plus late, with the counters of the arrivals before the stop |
| `Arrivals.TallyIsExact` | cmd/capacity-lab/burst.go:61-73 | each counter holds exactly the arrivals its own turn puts there |
| `Arrivals.TallyHasLargestLag` | cmd/capacity-lab/burst.go:61-64 | the reported lag is the largest one met |
| `Arrivals.EveryLaunchIsSampled` | cmd/capacity-lab/burst.go:124-152 | at most 384 requests run at a time, and once all have ended every launch has its sample |
| `Arrivals.CanDrain` | cmd/capacity-lab/burst.go:124-152 | from every point a stage can come to its end without a further launch, with one sample for each launch |
| `Arrivals.LaunchIs` | cmd/capacity-lab/burst.go:129-133 | a launch is refused exactly when all 384 slots are taken |
| `Arrivals.LaunchedIsAccounted` | cmd/capacity-lab/burst.go:153-182 | launched equals valid plus busy plus errors |
| `Arrivals.OperationsSumToTotals` | cmd/capacity-lab/burst.go:154-182 | after the correction the per-operation counters sum to the stage totals |
| `Arrivals.CorrectionIsNeeded` | cmd/capacity-lab/burst.go:175-181 | a throttled reply that is no controlled overload would otherwise be counted as busy by its operation and as an error by the stage |
| `Arrivals.RequestIsCredible` | cmd/capacity-lab/main.go:370-404 | a request marks an overload only on 429 and 503, which the accounting relies on |
| `Arrivals.PercentileIsLeast` | cmd/capacity-lab/main.go:275-280 | the percentile is read at a valid index and is the least sample with at least 95 percent of successes at or below it |
| `Arrivals.LatencyMeans` | cmd/capacity-lab/burst.go:185-190 | the latency target is met exactly when there is a success and at least 95 percent of them took at most 500 ms, counted in whole microseconds |
| `Arrivals.HealthyMeansAllValid` | cmd/capacity-lab/burst.go:194-196 | a healthy stage sent every planned request and got a valid answer to each |
| `Arrivals.HealthyIff` | cmd/capacity-lab/burst.go:194-196 | a stage is healthy exactly when every planned request was validly answered, in time, by two backends |
| `Arrivals.OtherTotalsCount` | cmd/capacity-lab/burst.go:161-175 | confirmed writes, admission refusals and replies by backend are counted sample by sample |
| `Arrivals.OperationDetails` | cmd/capacity-lab/main.go:260-274 | each operation counts its replies by status and keeps the times of its valid samples in order |
| `Arrivals.RequestIs` | cmd/capacity-lab/main.go:370-404 | a sample is valid for the wanted status with a sound payload, and controlled only for a throttling status with both marks |
| `Arrivals.Metric.Add` | cmd/capacity-lab/main.go:260-274 | one sample is counted in place by kind and status |
| `Arrivals.Metric.Finish` | cmd/capacity-lab/main.go:275-280 | the times are sorted and the percentile is read from them |
| `Arrivals.StageReport.Drain` | cmd/capacity-lab/burst.go:153-191 | the report loop over metric objects computes the specified report, and the latency verdict holds exactly when every operation meets it |

## Left out

- SocialLocks: notifications, read marks and participant rows are not locked or written in the model; a hall room exists for every identifier, and membership of the sender is checked only for direct rooms.
- ChatStore: message edits, reactions, attachments' storage keys and the formatting of the list are not part of this model.
- TownHall: expiry of unengaged requests by the database trigger is an input of each step, eligibility and payment of providers are inputs, an offer's price and terms arrive rounded and trimmed, and the price text is written in kobo rather than in the source's format, and without the title, unit and quantity of the request.
- TownHall.HallRoom.HallChoose: requires the room invariant, because it picks the one seated offerer, which the source's query finds by a join.
- RouteFiles: the ownership record is written in one step, and linking the file together with noting it is one step.
- ReleaseController: how containers are refreshed, the timer unit and the operation file lock are faults and inputs.
- Fulfillment: the settlement import is one flag for the ledger row of each paid order, set and cleared freely; whether the row is keyed by the order's canonical spelling, so that manifests see it, is an input of the payment, and `Payments` proves when it is.
- Fulfillment.MerchantDesk.CheckBulk: order identifiers are 36-character texts here and in `CreateManifest`; the source also parses a UUID in braces, with a prefix, without hyphens or in capitals, and its database then finds the same order.
- Fulfillment: carriers, notes, delivery estimates and notifications are not part of this model, nor are administrative overrides that write any stage.
- Money: exact reals stand for IEEE 754 doubles.
- Payments: administrative edits that take an unpaid order to a paid, shipped or delivered status are no steps of the model.
- Payments: amounts the gateway reports as fees, subscriptions, rewards, XP reservations and settlement import are not modelled; any failing statement of a settlement is one fault that rolls it back.
- Payments.PaymentController.FlutterwaveWebhook: signature checks and JSON decoding are left out; a provider subscription settles or not by an input.
- DiscoveryRank: relevance scores and the hashed rotation weight are inputs; any rotation function is allowed.
- DiscoveryEvents: signing is membership in the set of issued receipts.
- DiscoveryEvents.DiscoveryDesk.ReportEvents: reads the clock once for check and transaction, where the source reads two clocks at two moments; `DiscoveryStall` separates the moments.
- DiscoveryStall: a transaction commits at the moment it begins, which is the moment its keys are dated by.
- DeliveryAreas.NormaliseForCreate: starts from a submitted list; a missing list has become the one Nigerian offer by `NormaliseAreas` before.
- Fulfillment.MerchantDesk.CreateManifest: requires an identifier no manifest has, as the source draws a random one.
- DeliveryAreas: places are ASCII text; not-a-number and infinite prices do not exist over reals. The link that older portals get by `preserveLegacyPrimaryPriceLinks` is not part of this model.
- Pagination: base64 and JSON are trusted to be inverse; rows that change rank, or are deleted, in the middle of a walk are not covered.
- IdentityLinking: the mail address grammar is an input; two advisory locks make one sign-in a single step; referrals and deletion of users are left out.
- Arrivals: responses and turns are inputs; the sleeping of the pacing loop and the choice of templates are left out.
- The batch lifecycle, image handling, maps and distances, configuration and infrastructure generation would only add easy members.
