# A verified model of the Livi agent platform

This project models, in Dafny, the parts of the repository whose correctness depends on several pieces
agreeing with each other, and proves that they do.

* **Studio edits** (`Studio*.dfy`). A planner stages ordered room edits on a copy of the room
  (`StudioPlanner`), a journal follows every command (`StudioJournalState`, `StudioJournal`), a broker routes
  one request after the other to the connected Studio and checks its replies (`StudioBrokerState`,
  `StudioBroker`, `StudioReplies`), and the Studio side applies a batch atomically with optimistic revisions
  and command deduplication (`StudioAdapter`). What each of them promises is stated without their functions:
  `StudioRequests` and `StudioRefusals` for planning, `StudioEffects` for the adapter, `StudioRooms` for the
  broker, `StudioJournalRules` for the journal. `StudioAgreement` proves by simulation that the planner, the
  adapter and the broker agree on every edit list; `StudioUndo` that undo is an exact inverse; `StudioRuns`
  that revisions and command IDs do their work over every run of the adapter; `StudioSession`,
  `StudioLimits` and `StudioAdmission` prove safety of the whole conversation over every interleaving of
  admissions, tool calls, replies, timeouts, aborts, disconnects and restarts; `StudioStaleRecord` is one run in
  which a caller keeps an old record; `StudioConversation` puts the conversation and the Studio that answers its
  mailbox together and proves that what the journal says about a command is what happened to the room.
* **Framing** (`Framing.dfy`). The incremental decoder over arrays, against a parser that sees all bytes at once.
* **Services** (`ServiceStreams`, `ServiceClient`, `ServiceServer`, `ServiceOutcomes`, `ServiceProgress`). Requests,
  responses and subscriptions between one client and one server over two FIFO channels.
* **Agent loop** (`AgentMessages`, `AgentLoop`). The nested loop with its queues, its tool batches and the
  reduction of its events.
* **Model registry** (`ModelPublications`, `ModelEffects`, `ModelRegistry`). Publication of refreshed model lists,
  serialized per provider and checked against generations, over every interleaving with replacements and aborts.
* **Product catalog** (`Catalog*.dfy`). Text as the program and as the database compare it (`CatalogText`),
  category names (`CatalogAliases`, `CatalogCategories`), requests and their filter (`CatalogSearch`), what a
  search finds for a request as it was made (`CatalogAnswers`), follow-ups (`CatalogFollowUps`), paging
  (`CatalogLists`, `CatalogPages`), the filter compiled to SQL with numbered parameters (`CatalogSql`), and where
  both filters agree (`CatalogFilters`).

Objects whose methods change their fields are classes; each method is proved against a function on values
(`ensures Now() == ...`, `ensures (Now(), result) == ...`). What these functions have to do is stated by relations
that do not use them, in lemmas named `...Exactly`, and the protocol properties are lemmas about the runs that they
generate. What happens between two awaits is one step. Random IDs,
clocks, replies, tool results and the success of a write are parameters, so the theorems hold for all of them.
Freshness of random IDs is stated where a proof needs it (`FreshMint`, `FreshStamps`, `NewId`).

## Findings

* `StudioSessionRuntime.execute` trusts the state of the record it is given. A caller that keeps a prepared
  record and passes it again after the command was saved makes the broker send the command a second time:
  `StudioStaleRecord.StaleRecordSendsAgain` gives the run, from the first binding to the second request in the
  Studio's mailbox. `StudioSession.HandsOverExactlyWhen` gives the exact condition; it cannot happen to callers
  that pass the journal's current record, as the sequential tools do, and `StudioSession.AtMostOnce` is proved
  for these. The room is safe either way: a Studio that works on the second request changes nothing
  (`StudioConversation.ChangesOnce`).
* "One queued message at a time" does not hold for the first turn of a continuation. After a follow-up was
  taken in place of a prompt, a steering message queued by a listener of `agent_start`, `turn_start` or of the
  prompt's events joins the same turn. `AgentLoop.Agent.Continue` states exactly when.
* The buffer for updates that arrive before the snapshot (`queuedWireUpdates`) is never used on FIFO channels:
  the server holds updates back until the response has gone (`ServiceStreams.NothingIsLost`).
* Frames that are completed by the push that also fails are not delivered. What is delivered, followed by these
  lost frames, are the frames of the stream however it is cut (`Framing.CutsLose`); so the cuts are invisible if
  and only if the failing push completes no frame (`Framing.ChunkingInvisible`), and a frame followed by the header
  of one that is too long is delivered in two pushes and lost in one (`Framing.CutsDiffer`).
* The category filters of the database and of the program differ in both directions;
  `CatalogCategories.CategoryAgrees` gives the exact condition for every column and request, and no request is safe
  on every column (`CatalogCategories.SomeColumnDiffers`). On columns with nothing but blanks around them the
  database accepts more, for exactly three kinds of canonical names: one that is empty (a search for "s"), one that
  ends in s ("mattres", from "mattress"), and one whose plural is in the table of aliases ("couche", "benche",
  "shelve", "bookshelve", "book_shelve") (`CatalogCategories.CategoryFiltersAgree`, and
  `CatalogCategories.CouchesAreNotCouche` for an example). Of the columns that the program accepts, the database
  loses exactly those with other white space around them (`CatalogCategories.DatabaseCoversProgram`), such as a tab
  before "sofa" (`CatalogCategories.TabHidesSofa`).
* Saved constraints give the same filter when they are read again if and only if the canonical category is a
  trimmed text that is not empty and does not end in s (`CatalogSearch.RebuildRoundTrip`); otherwise the request
  accepts none of the products that it accepted before (`CatalogFollowUps.RebuiltAccepts`): after "mattress", a
  follow-up searches for "mattre" (`CatalogCategories.MattressIsNotStable`).
* A text column with white space other than blanks around it is found by the program and not by the database,
  when it is wanted as a whole and is not a single word (`CatalogFilters.TokensAgree`,
  `CatalogFilters.TabHidesWords`). A size that is infinite or not a number satisfies a lower bound in the database
  only (`CatalogFilters.SizesAgree`). A price below half a minor unit satisfies bounds in the database only
  (`CatalogFilters.PricesAgree`).

## Model

| member | source | states |
|---|---|---|
| `Framing.HeaderRoundTrip` | packages/protocol/src/framing.ts:31-36 | the four header bytes spell the payload length for every 32-bit length |
| `Framing.HeaderInverse` | packages/protocol/src/framing.ts:74-75 | every four bytes are the header of exactly one length |
| `Framing.HeaderIsBigEndian` | packages/protocol/src/framing.ts:31-75 | the header is the length in network order, the most significant byte first |
| `Framing.ParsedExactly` | packages/protocol/src/framing.ts:59-130 | a stream has one meaning: frames within the limit, and then the start of one that may go on, or the header of one that is too long |
| `Framing.EncodeFrame` | packages/protocol/src/framing.ts:28-39 | the filled array is header and payload, and longer payloads are refused |
| `Framing.RoundTrip` | packages/protocol/src/framing.ts:27-139 | any list of payloads within the limit, empty ones included, is parsed back from its encoding |
| `Framing.ChunkingInvisible` | packages/protocol/src/framing.ts:59-130 | cutting a stream into chunks changes neither failure nor unfinished bytes, and not the frames either if and only if the failing push completes none |
| `Framing.CutsLose` | packages/protocol/src/framing.ts:59-130 | what the pushes deliver, followed by the frames that the failing push completes, are the frames of the stream |
| `Framing.CutsDiffer` | packages/protocol/src/framing.ts:77-82 | a frame and the header of one that is too long: lost in one push, delivered in two |
| `Framing.WireRoundTrip` | packages/protocol/src/framing.ts:28-139 | however encoded payloads are cut, the pushes deliver exactly them, and nothing stays buffered |
| `Framing.CutStream` | packages/protocol/src/framing.ts:132-139 | a stream cut early yields a prefix of the payloads and is complete only at a frame boundary |
| `Framing.ParseSound` | packages/protocol/src/framing.ts:66-128 | the consumed bytes are exactly the encoding of the delivered frames |
| `Framing.Receive` | packages/protocol/src/framing.ts:59-139 | pushing the chunks of any cut into a new decoder hands over arrays that hold exactly the payloads, in order, and the decoder then ends without an error |
| `Framing.PushChunks` | packages/protocol/src/framing.ts:59-130 | pushes in turn deliver what `PushAll` says, and frames delivered earlier keep their bytes through all later pushes |
| `Framing.FrameDecoder.Push` | packages/protocol/src/framing.ts:59-130 | on arrays and blocks, one push delivers what parsing the buffered and the new bytes at once gives, or fails with that length, and keeps the rest |
| `Framing.FrameDecoder.End` | packages/protocol/src/framing.ts:132-139 | the decoder ends exactly when nothing is buffered, and otherwise fails |
| `Framing.FrameDecoder.Step` | packages/protocol/src/framing.ts:66-128 | every pass of the outer loop consumes a byte and advances the parse |
| `Framing.FrameDecoder.CopyPayload` | packages/protocol/src/framing.ts:93-109 | the inner loop stores exactly the bytes that belong to the payload, block after block |
| `Framing.FrameDecoder.AllocationBounded` | packages/protocol/src/framing.ts:93-109 | allocated bytes stay within the announced length, the limit, and what was received plus 65535 |
| `Framing.FrameDecoder.BufferedIsUnfinished` | packages/protocol/src/framing.ts:66-73 | between pushes no complete frame is held back |
| `StudioPlanner.Stage` | packages/decorator-agent/src/studio-tools.ts:282-469 | the staging loop yields the planned command or its refusal, as `PlannedExactly` and `PlanRefusedFor` tell them |
| `StudioRequests.PlannedExactly` | packages/decorator-agent/src/studio-tools.ts:252-469 | a plan is made exactly if there are one to fifty requests, each can be asked for in the room that those before it leave, and they are at most fifty operations; edit k does to the object of request k what that asks for, with its numbers |
| `StudioRequests.StagedExactly` | packages/decorator-agent/src/studio-tools.ts:297-452 | one request is staged exactly if its object is placed once and its target is three numbers, a product that may be used, or what a saved edit of this object and kind replaced; the edit says that, and the staged room changes by it alone |
| `StudioRequests.PlacementAsGiven` | packages/decorator-agent/src/studio-tools.ts:559-587 | a placement is accepted exactly if every vector has three numbers and it turns about the vertical only, and it carries the numbers that were given |
| `StudioRefusals.PlanRefusedFor` | packages/decorator-agent/src/studio-tools.ts:252-469 | a refused plan names what is wrong with the first request that cannot be asked for, or that there are none or too many |
| `StudioRequests.CardDecides` | packages/decorator-agent/src/studio-tools.ts:885-916 | with an add card a request may only repeat the card; without one it must name a product that was seen; in both directions, and its placement has the numbers given |
| `StudioRequests.DuplicateNamesOne` | packages/decorator-agent/src/studio-tools.ts:947-973 | a duplicate has the requested source, or the only selected object, exactly when there is one |
| `StudioAdmission.PlannedFollowsCard` | packages/decorator-agent/src/studio-tools.ts:282-318 | every add edit of a planned command carries product and quantity of the card |
| `StudioAdmission.ReplaceFollowsCard` | packages/decorator-agent/src/studio-tools.ts:330-343 | a staged replacement is the selected one, on the selected object, in the selected design |
| `StudioAdmission.OperationAddsItsCard` | packages/decorator-agent/src/studio-journal.ts:150-177 | over whole runs, the live commands of an operation admitted with an add card add at most the card's pieces of the card's product |
| `StudioEffects.AppliedExactly` | scripts/studio-smoke/adapter.ts:223-268 | an edit is applied exactly if it can have its effect and the room rules admit the room it leaves: a change touches one object as it says; new objects look like their source or catalog fact and stand at the given position, beside the anchor or at the default place, one step apart, and are reported there |
| `StudioEffects.SavedExactly` | scripts/studio-smoke/adapter.ts:187-301 | a command is saved exactly if it may be, with the room that its edits lead to, one after the other; otherwise the room stays and the code says what was wrong first |
| `StudioEffects.NudgedExactly` | scripts/studio-smoke/adapter.ts:176-185 | a manual edit moves, turns and scales one object as given and renames the revision, exactly if the room rules admit that |
| `StudioEffects.SelectedExactly` | scripts/studio-smoke/adapter.ts:165-174 | a selection is kept exactly if it names placed objects, each once, and changes nothing else |
| `StudioAdapter.JsonStudioAdapter.Execute` | scripts/studio-smoke/adapter.ts:187-301 | deduplication, binding and revision checks, atomic application and persistence, with the state after every outcome |
| `StudioAdapter.JsonStudioAdapter.ApplyEdits` | scripts/studio-smoke/adapter.ts:223-268 | the edit loop applies edits in order and validates after each |
| `StudioAdapter.JsonStudioAdapter.ApplyCreate` | scripts/studio-smoke/adapter.ts:324-377 | instances are created one step apart with fresh IDs, and reported as they are placed |
| `StudioAdapter.JsonStudioAdapter.Select` | scripts/studio-smoke/adapter.ts:165-174 | a selection is kept exactly if the room stays valid |
| `StudioAdapter.JsonStudioAdapter.ManualEdit` | scripts/studio-smoke/adapter.ts:176-185 | a manual edit changes one object and renames the revision, or nothing |
| `StudioAgreement.PlannerAdapterBrokerAgree` | packages/decorator-agent/src/studio-tools.ts:282-469 | a command planned on the current room is saved if and only if the adapter can supply it; the broker believes the result; the planned objects are saved as staged; a rejection changes nothing |
| `StudioAgreement.AgreementAtStep` | scripts/studio-smoke/adapter.ts:224-268 | after every number of edits, the adapter's room restricted to the planned objects is the staged room, and the reported outcomes fit their edits |
| `StudioAgreement.AlignedChange` | packages/decorator-agent/src/studio-tools.ts:437-449 | one move, rotation, replacement or removal is staged and applied alike, and reported with the transforms around it |
| `StudioAgreement.AlignedCreate` | scripts/studio-smoke/adapter.ts:324-377 | creating leaves the planned objects alone and adds the requested number of new ones |
| `StudioAgreement.SavedAcceptable` | scripts/studio-smoke/room.ts:52-114 | validation after every edit leaves no way to save an edit list that is not acceptable |
| `StudioAgreement.BelievesMatching` | packages/decorator-agent/src/studio-broker.ts:215-252 | a saved result whose outcomes fit the edits passes every check of the broker |
| `StudioUndo.ReverseUndoRestores` | packages/decorator-agent/src/studio-tools.ts:349-436 | undoing a saved batch in reverse order, or a single command, is accepted if and only if all its edits are reversible, is then saved, and restores every position, rotation and product, prices excepted |
| `StudioUndo.StepBack` | packages/decorator-agent/src/studio-tools.ts:349-436 | taking one edit back leads from a room like the one after it to one like the one before it |
| `StudioUndo.IrreversibleRefused` | packages/decorator-agent/src/studio-tools.ts:349-416 | removals, creations and replacements of unknown products cannot be taken back in any room |
| `StudioUndo.UndoStops` | packages/decorator-agent/src/studio-tools.ts:282-296 | one irreversible edit anywhere makes the whole undo request fail |
| `StudioRuns.EqualRevisionsEqualRooms` | scripts/studio-smoke/adapter.ts:269-272 | over every run, equal revisions mean equal rooms, selection apart, and equal save counts |
| `StudioRuns.ChangeIsNew` | scripts/studio-smoke/adapter.ts:176-185 | every change gives the room a revision that it never had before |
| `StudioRuns.RecordedForever` | scripts/studio-smoke/adapter.ts:188-195 | an executed command keeps its result for ever, and executing it again at any later time changes nothing |
| `StudioRuns.SaveCountIsSavedCommands` | scripts/studio-smoke/adapter.ts:269-301 | the save count is the number of commands recorded as saved |
| `StudioRuns.SavedOnThePlannedRoom` | scripts/studio-smoke/adapter.ts:204-209 | a command planned at any earlier time is saved exactly if the revision is unchanged and its edits are acceptable, and is then applied to the very room it was planned on |
| `StudioBrokerState.BrokerAgreement` | packages/decorator-agent/src/studio-broker.ts:83-197 | mailboxes list exactly the open requests in send order; every request is open or over; nothing is open after release or close; rooms belong to their design |
| `StudioBrokerState.OverForGood` | packages/decorator-agent/src/studio-broker.ts:257-268 | a request ends once and stays ended; a newer room was published with a greater sequence number |
| `StudioBrokerState.StepKeeps` | packages/decorator-agent/src/studio-broker.ts:83-323 | every step of Studio, of a caller, or of time keeps these invariants |
| `StudioBrokerState.SavedIsNotRejected` | packages/decorator-agent/src/studio-broker.ts:151-179 | a save reported for an open request ends as that result or as unknown |
| `StudioBrokerState.ReleaseKeeps` | packages/decorator-agent/src/studio-broker.ts:181-195 | releasing an endpoint in any state ends all its requests and empties its mailbox |
| `StudioRooms.RoomIsTheNewest` | packages/decorator-agent/src/studio-broker.ts:134-256 | over every run, the room of a live connection is the one accepted with the greatest number, published or in a reply, with the selection accepted last after it |
| `StudioRooms.ContextReplyStores` | packages/decorator-agent/src/studio-broker.ts:198-213 | a reply to a context request ends it exactly if the room is of this registration and design and well formed, with a newer room stored; a refused one changes nothing |
| `StudioRooms.EndsExactly` | packages/decorator-agent/src/studio-broker.ts:151-327 | every way for an open request to end, and how its caller sees it; no other step touches it |
| `StudioRooms.EndedBySomeStep` | packages/decorator-agent/src/studio-broker.ts:151-327 | over every run, what is over was ended by one step, as that step ends it |
| `StudioRooms.CredibleIs` | packages/decorator-agent/src/studio-broker.ts:215-252 | a result is believed exactly if it is about its command and, if saved, tells one outcome of the right form for every edit and the room and revision that were saved |
| `StudioRooms.RegisteredExactly` | packages/decorator-agent/src/studio-broker.ts:101-126 | when a registration succeeds, what it records, and why it is refused |
| `StudioRooms.PublishRefusedFor` | packages/decorator-agent/src/studio-broker.ts:134-136 | a publication is refused exactly if the caller may not speak or the room is not admitted, and changes nothing then |
| `StudioRooms.SentExactly` | packages/decorator-agent/src/studio-broker.ts:269-304 | a request is sent exactly if the tab is ready with the bound design and the caller waits; it is addressed to that connection and last in its mailbox |
| `StudioBroker.Broker.Register` | packages/decorator-agent/src/studio-broker.ts:101-126 | a tab has at most one live connection, and an endpoint registers once |
| `StudioBroker.Broker.Respond` | packages/decorator-agent/src/studio-broker.ts:151-179 | replies are authorized, matched, checked and delivered, and an invalid save leaves an unknown outcome |
| `StudioBroker.Broker.Check` | packages/decorator-agent/src/studio-broker.ts:209-256 | the checks and their order, and the room that comes with a result |
| `StudioBroker.Broker.Release` | packages/decorator-agent/src/studio-broker.ts:181-195 | the loop ends every open request of the connection |
| `StudioBroker.Broker.Close` | packages/decorator-agent/src/studio-broker.ts:321-327 | the loop ends every open request |
| `StudioBroker.Broker.Request` | packages/decorator-agent/src/studio-broker.ts:269-304 | a request goes to the connected, ready Studio of the bound design, and to the end of its mailbox |
| `StudioJournal.Journal.Prepare` | packages/decorator-agent/src/studio-journal.ts:135-181 | blocking, the stale limit, idempotence, the admission limits, and the new record |
| `StudioJournal.Journal.Settle` | packages/decorator-agent/src/studio-journal.ts:195-214 | the first result decides the record; an unknown batch blocks its operation |
| `StudioJournal.Journal.Dispatch` | packages/decorator-agent/src/studio-journal.ts:183-193 | a prepared record becomes unknown, or cancelled if aborted |
| `StudioJournal.Journal.DiscardAdmission` | packages/decorator-agent/src/studio-journal.ts:87-97 | the loop forgets exactly the records of the operation |
| `StudioJournal.Journal.CancelPrepared` | packages/decorator-agent/src/studio-journal.ts:216-220 | the loop cancels exactly the prepared records of the operation |
| `StudioJournalRules.PreparedExactly` | packages/decorator-agent/src/studio-journal.ts:135-181 | a command is recorded exactly if its operation is not blocked, fewer than three batches turned stale, it is new and the card admits it; what is recorded is given back; and the two refusals |
| `StudioJournalRules.DispatchedExactly` | packages/decorator-agent/src/studio-journal.ts:183-193 | only a prepared record is dispatched, cancelled exactly if the caller gave up |
| `StudioJournalRules.SettledExactly` | packages/decorator-agent/src/studio-journal.ts:195-214 | the first result decides the record, an operation is blocked exactly by an unknown batch, and the record is stored exactly if it is a save and the store can be written |
| `StudioJournalRules.DiscardForgetsOne` | packages/decorator-agent/src/studio-journal.ts:87-97 | discarding forgets one operation and nothing else, and nothing that is stored of its commands |
| `StudioJournalRules.AdmittedExactly` | packages/decorator-agent/src/studio-journal.ts:71-85 | an admission holds the bound room and the card, and leaves no trace if it cannot be stored |
| `StudioJournalRules.CommittedIsStoredForGood` | packages/decorator-agent/src/studio-journal.ts:195-214 | over every run, a save that returns to its command while the store can be written is stored and can be read ever after, also after a restart |
| `StudioJournalRules.StoredByItsReturn` | packages/decorator-agent/src/studio-journal.ts:206-212 | nothing else is ever stored |
| `StudioJournalRules.ExecutedExactly` | packages/decorator-agent/src/studio-session.ts:169-186 | for any record a caller may hold: what is sent, what is cancelled, and what a failure of the broker leaves |
| `StudioJournalRules.ReturnedExactly` | packages/decorator-agent/src/studio-session.ts:175-185 | a result settles its record as it is, an error as rejected, anything else as unknown |
| `StudioJournalRules.PreparedForItsRoom` | packages/decorator-agent/src/studio-session.ts:188-199 | a command is prepared exactly for the bound room while it is connected |
| `StudioJournalState.PrepareForm` | packages/decorator-agent/src/studio-journal.ts:135-181 | preparation changes no record, and adds one only within all limits |
| `StudioSessionRuntime.SessionRuntime.Execute` | packages/decorator-agent/src/studio-session.ts:169-186 | dispatch, sending and settling of a failure, over the journal and the broker |
| `StudioSessionRuntime.SessionRuntime.Prepare` | packages/decorator-agent/src/studio-session.ts:188-199 | a command is prepared only for the bound room while it is connected |
| `StudioSessionRuntime.SessionRuntime.Return` | packages/decorator-agent/src/studio-session.ts:175-185 | the reply, or its failure, settles the record |
| `StudioSession.AtMostOnce` | packages/decorator-agent/src/studio-session.ts:169-186 | through aborts, cancellations and restarts no command is handed to the broker twice |
| `StudioSession.RecoveredNeverSends` | packages/decorator-agent/src/decorator-session.ts:192-200 | an operation that was open at a restart never sends again |
| `StudioSession.FirstResultWins` | packages/decorator-agent/src/studio-journal.ts:195-204 | while a decided command is listed, its record does not change |
| `StudioSession.CommittedWasChecked` | packages/decorator-agent/src/studio-broker.ts:215-252 | every committed record, current or stored, holds a saved result that passed the broker's checks for that command |
| `StudioSession.SavedReplyIsNeverRejected` | packages/decorator-agent/src/studio-broker.ts:151-179 | a save reported while the command waits is recorded as exactly that result or as unknown, whatever happens in between |
| `StudioSession.HandsOverExactlyWhen` | packages/decorator-agent/src/studio-session.ts:169-174 | for any record a caller may hold, when a command is sent |
| `StudioStaleRecord.StaleRecordSendsAgain` | packages/decorator-agent/src/studio-session.ts:169-174 | a run from the start in which a command is saved, and the record made before then puts a second request for it into the Studio's mailbox |
| `StudioConversation.ChangesOnce` | scripts/studio-smoke/adapter.ts:187-195 | however often a command is sent and worked on, by current or old records, it changes the room at most once |
| `StudioConversation.JournalTellsTruth` | packages/decorator-agent/src/studio-session.ts:169-186 | over every run of conversation and Studio: a committed command is recorded by the Studio as saved with the very result, a rejected one as rejected, a prepared or cancelled one not at all |
| `StudioConversation.CommittedChanged` | scripts/studio-smoke/adapter.ts:187-301 | a committed command changed the room in exactly one step, to the room that its result shows |
| `StudioConversation.RefusedChangesNothing` | scripts/studio-smoke/adapter.ts:187-301 | a rejected command changes the room neither before nor after, and a prepared or cancelled one has not changed it |
| `StudioConversation.NextKeeps` | scripts/studio-smoke/adapter.ts:303-321 | every step of the conversation, the broker, the Studio and its user keeps journal, mailbox, replies and recorded commands in agreement |
| `StudioConversation.DeliverEnds` | packages/decorator-agent/src/studio-broker.ts:209-268 | a delivered reply ends no request but its own, and in the way it says |
| `StudioSession.NextKeeps` | packages/decorator-agent/src/decorator-session.ts:56-107 | every step keeps the invariant that ties journal, broker, waits and history together |
| `StudioLimits.OneAddPerOperation` | packages/decorator-agent/src/studio-journal.ts:157-177 | an operation admitted to add has at most one add edit in commands that were not rejected or cancelled |
| `StudioLimits.ThreeStaleBatches` | packages/decorator-agent/src/studio-journal.ts:138-147 | with one outstanding command at a time, at most three batches of an operation end stale |
| `StudioLimits.UnknownBatchEndsMutations` | packages/decorator-agent/src/studio-journal.ts:205-205 | after an unknown batch outcome the operation prepares nothing more while it is open |
| `ServiceStreams.ResponsesPair` | packages/client/src/client.ts:238-343 | for every interleaving, every response finds its request, every update decodes, no request is answered twice, and none waits while disconnected |
| `ServiceStreams.HeardIsPublished` | packages/client/src/client.ts:313-331 | a listener hears a prefix of what was published after its snapshot, in order |
| `ServiceStreams.NothingIsLost` | packages/server/src/server.ts:334-382 | what was published was heard, is queued, is on its way in the right encoding, or is held back; with empty channels everything was heard |
| `ServiceOutcomes.AnswersTellTheReport` | packages/server/src/server.ts:345-400 | for every interleaving, an answer is ok exactly if the handler of that request succeeded, with its result or, for a subscribe, its snapshot; and every report is on its way to a caller that waits |
| `ServiceOutcomes.SettledByItsHandler` | packages/client/src/client.ts:238-343 | for every interleaving, every request waits or is settled, as its own handler reported, unless its caller gave up, the client dropped the connection, or it was never sent |
| `ServiceOutcomes.SettledForGood` | packages/client/src/client.ts:363-378 | a report and a settlement are final |
| `ServiceOutcomes.PublishedIsWhatHappened` | packages/server/src/server.ts:334-344 | the streams that these theorems speak about hold the snapshot that was made and what was published after it |
| `ServiceProgress.NoRequestIsForgotten` | packages/server/src/server.ts:298-400 | for every interleaving, while both ends keep their connection a request is on its way, its handler is at work on it, or its answer is on the way back |
| `ServiceProgress.DrainsInOrder` | packages/server/src/server.ts:375-382 | each round of the loop sends the update that was held longest in the next encoding, and the last makes the subscription ready |
| `ServiceProgress.StartsAtOnce` | packages/client/src/client.ts:216-220 | a started listener hears at once all that was queued, in order |
| `ServiceStreams.NextKeeps` | packages/server/src/server.ts:298-450 | every step of client, server and channels keeps pairing and streams |
| `ServiceStreams.ListenerHears` | packages/client/src/client.ts:319-331 | the next update to arrive is the next one published, and the decoder is in its encoder's state |
| `ServiceClient.Client.Start` | packages/client/src/client.ts:216-220 | the loop delivers what was queued, in order |
| `ServiceClient.Client.Hydrate` | packages/client/src/client.ts:197-203 | the snapshot is decoded first, then what came before it, in order |
| `ServiceClient.Client.HandleMessage` | packages/client/src/client.ts:304-343 | responses and updates change requests and listeners as specified, or fail the connection |
| `ServiceServer.Connection.Respond` | packages/server/src/server.ts:345-400 | a call is answered as its handler reported, the encoder is in place before the response, and is removed by an unsubscribe |
| `ServiceServer.Connection.Drain` | packages/server/src/server.ts:375-382 | held updates go out first in, first out, and only then is the subscription ready |
| `ServiceServer.Connection.Disconnect` | packages/server/src/server.ts:417-436 | the loop takes out every encoder, and no request stays active |
| `AgentLoop.GoesOnExactly` | packages/agent/src/agent-loop.ts:156-273 | a turn of a run is followed by another exactly if its response did not fail, the run is not stopped, and some result does not terminate or something was polled to inject |
| `AgentLoop.FollowAt` | packages/agent/src/agent-loop.ts:175-262 | what is polled after a turn, from which queue, and what waits for the next |
| `AgentLoop.AskedAt` | packages/agent/src/agent-loop.ts:279-310 | in every turn the model is asked with all that came before and what is injected |
| `AgentLoop.PendingMessageQueue.Drain` | packages/agent/src/agent.ts:141-154 | first in, first out; all messages or one |
| `AgentLoop.Agent.RunLoop` | packages/agent/src/agent-loop.ts:156-273 | the nested loops keep events, returned messages, state and queue takings in agreement, go on and stop as `GoesOnExactly` tells, and end with `agent_end` |
| `AgentLoop.Agent.Run` | packages/agent/src/agent-loop.ts:96-119 | ended messages, returned messages and state growth are one sequence; every message taken is injected once in order; one at a time per turn; turns alternate; the calls of every turn are answered in order, all of them unless an abort was seen, and none stays pending |
| `AgentLoop.Agent.Continue` | packages/agent/src/agent.ts:361-388 | when a continuation runs and with which prompts, and exactly when its first turn holds two queued messages |
| `AgentLoop.Agent.RunTurn` | packages/agent/src/agent-loop.ts:200-250 | one turn adds its queued messages, its response and exactly the results of its batch to events, context, result and state alike |
| `AgentLoop.BatchFits` | packages/agent/src/agent-loop.ts:379-561 | in every mode the results answer the calls in order; all calls of a truncated response, and all calls of any other unless an abort was seen |
| `AgentLoop.Agent.RunSequential` | packages/agent/src/agent-loop.ts:431-485 | results in call order up to the first abort, one end for every start |
| `AgentLoop.Agent.RunParallel` | packages/agent/src/agent-loop.ts:487-561 | whatever order the calls finish in, the results come in call order, and no call stays pending |
| `AgentLoop.Agent.FailTruncated` | packages/agent/src/agent-loop.ts:379-404 | a truncated response executes nothing and answers every call with an error |
| `AgentLoop.Agent.StreamResponse` | packages/agent/src/agent-loop.ts:279-370 | however it is streamed, the response ends up in the context once and ends once |
| `AgentLoop.Agent.Emit` | packages/agent/src/agent.ts:544-582 | the reduction of one event to the state |
| `AgentMessages.ParallelIsSequential` | packages/agent/src/agent-loop.ts:431-561 | without an abort both modes give the same results and the same decision to go on |
| `AgentLoop.BatchAnswers` | packages/agent/src/agent-loop.ts:409-561 | the results of every kind of batch answer its first calls in order |
| `ModelPublications.PublicationsInOrder` | packages/ai/src/models.ts:343-370 | over every run, at most one publication of a provider is in flight, and store and memory change in the order of generations |
| `ModelEffects.EventsHappen` | packages/ai/src/models.ts:343-370 | over every run, what each event does to publications, memory and store: a publication gives up exactly if its refresh is no longer the latest or was aborted, and otherwise persists and updates what it says |
| `ModelEffects.CurrentExactly` | packages/ai/src/models.ts:325-352 | a publication is current exactly if its refresh is the latest of the provider and was not aborted |
| `ModelPublications.OnlyCurrentUpdates` | packages/ai/src/models.ts:352-363 | every step leaves the memory alone or is the update of a publication that is current and not aborted |
| `ModelPublications.SupersededStaysSilent` | packages/ai/src/models.ts:325-370 | after a replacement, nothing published under an earlier generation ever reaches the memory |
| `ModelPublications.CurrentTakesEffect` | packages/ai/src/models.ts:349-363 | once everything before it has settled, a current publication is written and takes effect |
| `ModelPublications.FreeIsAlone` | packages/ai/src/models.ts:349-351 | when the awaited publication has settled, so has everything queued before for that provider |
| `ModelRegistry.ModelsImpl.ClearProviders` | packages/ai/src/models.ts:284-289 | the loop supersedes every registered or refreshing provider once |
| `ModelRegistry.ModelsImpl.SupersedeProviderRefresh` | packages/ai/src/models.ts:325-334 | the generation grows by one and the current refresh is aborted |
| `ModelRegistry.ModelsImpl.PublishProviderModels` | packages/ai/src/models.ts:343-369 | a publication is queued behind the tail of its chain and becomes the tail |
| `ModelRegistry.ClearedStaysSilent` | packages/ai/src/models.ts:284-289 | clearing the registry is final for everything registered or being refreshed |
| `CatalogText.BrandsAgree` | livi-server/src/catalog-postgres.ts:28-29 | the brand column of the database equals the normalization of the program on every text |
| `CatalogText.BrandForm` | packages/decorator-agent/src/catalog.ts:409-411 | a normalized brand is trimmed, not empty, and normalized again to itself |
| `CatalogCategories.CategoryFiltersAgree` | livi-server/src/catalog-postgres.ts:296-301 | on columns with only blanks around them, the two category filters agree everywhere if and only if the canonical name is not empty, does not end in s, and has no plural in the table |
| `CatalogCategories.DatabaseCoversProgram` | livi-server/src/catalog-postgres.ts:296-301 | of the columns that the program accepts, the database accepts exactly those with nothing but blanks around them |
| `CatalogCategories.CategoryAgrees` | livi-server/src/catalog-postgres.ts:296-301 | on any column the two category filters agree if and only if, with only blanks around it, whatever stands for the wanted name has it as its canonical name, and otherwise neither accepts it |
| `CatalogCategories.SomeColumnDiffers` | livi-server/src/catalog-postgres.ts:296-301 | for every request there is a column on which the two category filters differ |
| `CatalogCategories.TabHidesCategory` | livi-server/src/catalog-postgres.ts:298-298 | an unambiguous category after a tab is found by the program and not by the database |
| `CatalogCategories.ProgramAccepts` | packages/decorator-agent/src/catalog.ts:474-477 | the program accepts a category exactly if its canonical name is the wanted one |
| `CatalogSearch.RebuildRoundTrip` | packages/decorator-agent/src/catalog.ts:507-607 | saving a normalized request and reading it again gives the same filter if and only if its category is stable |
| `CatalogFollowUps.RebuiltAccepts` | packages/decorator-agent/src/catalog.ts:507-607 | a saved request that is read again accepts all of what it accepted before if its category is stable, and none of it otherwise |
| `CatalogAnswers.AcceptedExactly` | packages/decorator-agent/src/catalog.ts:413-469 | a request is accepted exactly if its texts say something, its bounds are positive, in order and in one currency, and its page is one of at most twenty |
| `CatalogAnswers.NormalizedMeans` | packages/decorator-agent/src/catalog.ts:413-505 | a product passes the normalized filter exactly if it meets every wish of the request as it was made |
| `CatalogAnswers.SearchAnswers` | packages/decorator-agent/src/catalog.ts:379-397 | a search gives the page asked for of all products that meet the request, as often as there are, in the order of the ranking |
| `CatalogFollowUps.SmallerAcceptedExactly` | packages/decorator-agent/src/catalog.ts:665-720 | "smaller" is refused exactly if no reference is identified, or the named dimension, or without one the only dimension, is not known |
| `CatalogFollowUps.CheaperAcceptedExactly` | packages/decorator-agent/src/catalog.ts:634-648 | "cheaper" is refused exactly if no reference with a price is identified, its currency differs from the earlier bounds, or nothing can be cheaper |
| `CatalogFollowUps.SmallerIsIntersection` | packages/decorator-agent/src/catalog.ts:666-688 | "smaller" accepts exactly the products of the earlier filter with that dimension strictly below the reference |
| `CatalogFollowUps.CheaperIsIntersection` | packages/decorator-agent/src/catalog.ts:635-665 | "cheaper" accepts exactly the products of the earlier filter with a price in the same currency strictly below the reference |
| `CatalogFollowUps.CheaperEnds` | packages/decorator-agent/src/catalog.ts:635-665 | a chain of "cheaper" steps, each from a result of the one before, has at most as many steps as the first price has minor units |
| `CatalogFollowUps.ReferenceWasShown` | packages/decorator-agent/src/catalog.ts:691-715 | the reference is the first shown product of the given name, the only one shown, or the only current one, and the request is refused exactly if there is none |
| `CatalogPages.ShowMoreEnumerates` | packages/decorator-agent/src/catalog.ts:379-397 | repeated show_more lists the ranked matches from the offset on without repeats or gaps, and is exhausted exactly when all are listed |
| `CatalogPages.EveryPage` | packages/decorator-agent/src/catalog.ts:620-631 | page k of any search that serves a list holds its next part |
| `CatalogPages.RemainingMatches` | packages/decorator-agent/src/catalog.ts:471-472 | leaving out the shown products leaves the ranked matches without them, in order |
| `CatalogSql.SearchSql` | livi-server/src/catalog-postgres.ts:282-330 | the clauses with their numbered parameters accept exactly the rows that the request means; embedding, limit and offset have their numbers |
| `CatalogSql.SqlText.PushDimension` | livi-server/src/catalog-postgres.ts:346-358 | the clauses added for one dimension mean its range |
| `CatalogSql.SqlText.Add` | livi-server/src/catalog-postgres.ts:291-294 | a new parameter gets the next number and changes the meaning of no clause |
| `CatalogFilters.WholeFiltersAgree` | livi-server/src/catalog-postgres.ts:247-358 | a row is selected by the database if and only if it is active and its mapped product passes the filter of the program, exactly where no clause of the request differs on the row or both refuse it |
| `CatalogFilters.TokensAgree` | livi-server/src/catalog-postgres.ts:332-337 | a text matches in the database exactly as in the program, if and only if it is not padded |
| `CatalogFilters.ColorAgrees` | livi-server/src/catalog-postgres.ts:304-307 | actual and offered colors match alike, if and only if a padded color is not the only match |
| `CatalogFilters.SizesAgree` | livi-server/src/catalog-postgres.ts:346-358 | sizes match alike if and only if no boundless value meets a lower bound alone |
| `CatalogFilters.PricesAgree` | livi-server/src/catalog-postgres.ts:313-317 | prices match alike, rounding included, if and only if the price has a countable number of minor units or is outside the bounds |
| `CatalogFilters.Search` | livi-server/src/catalog-postgres.ts:135-221 | compiling, executing and mapping is the search that is meant |
| `CatalogFilters.DatabaseIsMemory` | livi-server/src/catalog-postgres.ts:191-221 | on comparable rows, and for one and the same ranking, the database finds, page by page, what the program finds among their products |
| `CatalogFilters.DatabaseEnumerates` | livi-server/src/catalog-postgres.ts:191-221 | show_more on the database lists its matches without repeats or gaps |

## Left out

* Floating point: coordinates are reals and always finite; the checks for non-finite numbers and for vectors of the wrong shape inside a saved room have no counterpart.
* CatalogFilters.PricesAgree: prices are exact numbers, whereas the conversion of the price column to `numeric` keeps six digits, so that the database compares 12345.67 as 12345.7.
* JavaScript numbers: a numeric revision beyond the exact integer range rounds in the original, so equal revisions are proved distinct only within that range.
* Error messages: errors are codes; the adapter picks the code of a failed edit by searching the message text, which is modelled for its own messages and not for object names that contain these words.
* The document of the adapter: reading, writing, renaming and syncing the file is one flag, and executing a command is one step.
* The order in which the Studio works on the requests it has seen, its check of their generation, and which replies it drops: `StudioConversation` lets it work and reply in any order, again, or never. Nobody else is registered for its tab.
* The planning snapshots per turn, the time and the invocation of a record, and the observed transform it carries: nothing that is proved depends on them.
* Target resolution from natural language, prompts, search tools and debug output of the tools.
* Directory, notification and replication of broker and session state to listeners.
* Sessions without a broker: `execute` fails before it dispatches anything.
* Tool schemas: sizes and types of arguments are checked by a validator that is not part of this model.
* The encoding of messages and of service state: an abstract stateful codec whose decoder understands its encoder in the same state.
* Handshake, attachments, transports and the choice of a session on the server; a subscription is named by its subscribe request instead of by a second counter.
* Listeners and tools that throw during an agent run, progress updates of tools, compaction and the conversion of messages for a provider.
* Agent runs that never end: a run follows a finite script, after which the provider fails.
* Refreshes of a provider themselves (credentials, the two phases, errors) and the lists of models: any publication of any generation that was begun may come at any time.
* Letters outside ASCII keep their case in the catalog, and the category names "constructor" and "__proto__", which find inherited members of the table of aliases, are names like any other.
* Embeddings, the free text of a query and its ranking, the rule that a database search needs a query or filters, the target of a replacement, reasons, brand lists, and the cleaning of links.
* Terminal and browser code.
