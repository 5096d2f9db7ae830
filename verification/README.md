# Kintio: verified model of the gateway's state machines

Kintio is a durable message gateway between messaging channels and an Agent. Its hard logic is a set of
transactional state machines over SQLite tables and a few schedulers in memory. This project models them
in Dafny 4.11 and proves what they keep. `dafny verify dfyconfig.toml` checks everything.

## What is modelled

**The tables** (`Tables.dfy`). One map per table, in one record `Db`. A hashed key is the tuple that is
hashed. Two history variables are kept beside the tables: `sent` (one element for every time an attempt of
a window goes on the wire) and `Attempt.issued` (the row was inserted holding quota).

**The transactions.** `Ledger.dfy`, `PageCommit.dfy`, `Inbox.dfy` and `Authorization.dfy` say what each
transaction of `src/ilink/sqlite-store.ts` and `src/state/sqlite-store.ts` does to the tables:
`Commit(db, value)` or `Rollback(error)`. `IlinkStore.dfy` and `CoreStore.dfy` hold the stores as classes
over a mutable `Database`; their methods run statement by statement, loop where the source loops, roll
back where it throws, and are proved against those functions.

**Runs.** `Events.dfy` has one event for every transaction that writes these tables, with arbitrary
arguments and clock readings; `Final(run)` is the database after a run from empty tables. `Invariants.dfy`
is the invariant; `InboxProofs.dfy`, `LedgerProofs.dfy`, `PageProofs.dfy` and `RetentionProofs.dfy` prove
that each transaction keeps it; `Steps.dfy` proves along which edges rows may move. `Runs.dfy`,
`Safety.dfy`, `Cursors.dfy` and `Paging.dfy` draw the conclusions for all runs.

**Outcomes.** `Quota.dfy`, `PageRows.dfy`, `Outcomes.dfy` and `Upkeep.dfy` say of each transaction, in terms of rows
alone and with the limits written out, exactly when it commits, what it changes and that nothing else changes.

**Pages.** `PageOrder.dfy` is the order of page entries; `PageTheorems.dfy` says what a committed page
delivers, `PageFailures.dfy` which pages fail; `WindowFold.dfy` relates the loop over windows to a fold over
entries. `Listener.dfy` is one listener with its own cursor, generation and undelivered keys.

**Exactness.** `Reservations.dfy` counts by how much reservations and pending attempts differ, `Cursors.dfy`
when the fence of an account is passed. `Witnesses.dfy` and `FullWindow.dfy` hold runs that reach the situations
of which the theorems speak, and runs in which a property fails.

**The schedulers.** `Scheduler.dfy` (conversation slots), `SyncWorker.dfy` (WeCom synchronization, cut at
every `await` and `finally`), `SyncHistory.dfy` (the requests behind its merged flags), `Approvals.dfy` (Codex
approval requests) and `Executor.dfy` (one tool call driven through the ledger, with other transactions and its
own clock readings at every `await`). Each has a specification in functions, invariants over every run, and, but
for the executor, a class whose methods change the fields as the source does.

## Findings

- `compareEntries` orders every page of a given shape exactly when at most one entry, or every entry, has a
  provider sequence, and no other id stands between two numeric ones (`PageOrder.OrderlyExactly`).
- On a page that `compareEntries` orders, folding `entryIsNewer` and sorting pick the same message exactly when
  the last entry of the sort stands: between it and every earlier entry that ties with it lies one of the other
  kind, and none of the other kind comes later, where two entries of one time are of different kind if one has a
  provider sequence and the other has none (`PageOrder.FoldAgreesExactly`). If all
  entries or none have a sequence, that is: exactly when the top place is not tied
  (`PageOrder.FoldAgreesWithoutTies`). `message:5` and `message:05` tie (`PageOrder.LeadingZeroTies`); one
  sequenced entry after one without a sequence parts the two without any tie
  (`PageOrder.OneSequencedEntryDisagrees`).
- Suppression fails pending attempts without returning their reservation. The reservations of an open window
  are its pending attempts and those suppressed while it was open, so they are equal exactly when no
  suppression ever met a pending attempt of it (`Reservations.ReservationsExact`,
  `Reservations.ReservationsEqualPending`); `Witnesses.ReservationLeaks` is a run in which they differ.
- A completed message may still own a pending queue notice; only attempts of the tools are settled with
  their message (`Safety.CompletedMayOweNotice`).
- The budget check of `finalizeAgentExecution` and the counter guards of the ledger can never fail
  (`Safety.BudgetIsEnforced`, `Safety.CounterGuardsAreDead`).
- An acknowledgement and a delivery failure commute, up to time stamps, exactly when no failure of another
  type was recorded for the id before (`Delivery.DeliveryConfluent`).
- The generation of an account restarts at 1 when the account is deleted and registered again. A stale listener
  passes the fence exactly when the present life of the account has had as many rotations as the life it read,
  and the cursor is the one it read (`Cursors.FenceIsExact`, `Cursors.StaleListenerFenced`);
  `Witnesses.FenceSpansLives` is a run in which a page of an earlier life commits.
- Cleanup deletes old windows but keeps their messages. A page that passes the fence and is valid fails with
  `dedupe_invariant` exactly when it repeats a stored message of another conversation or one without a window
  (`PageFailures.ValidPageOutcome`); `Witnesses.ReplayFails` is a run that comes to it.

## Model

| member | source | states |
|---|---|---|
| Safety.QuotaConserved | src/ilink/sqlite-store.ts:567-651 | After every run, every window has put at most ten attempts on the wire; `transmitted` is exactly the number of its attempts that went on the wire, reservations cover the pending attempts, both together are at most ten, and a window that is not open holds neither |
| Quota.ReplyIsReserved | src/ilink/sqlite-store.ts:1828-1944 | Through a session whose message is worked on and whose account is active and of the window's generation, a reply is reserved if and only if the window is open, has not expired and has fewer than ten sends reserved or done; otherwise the refusal is recorded with its reason, or rolled back if the window was retired or nothing is to be recorded. All rows afterwards |
| Quota.UnboundReply | src/ilink/sqlite-store.ts:1840-1847 | Through any other session nothing is reserved and nothing recorded |
| Quota.NoIndexLeft | src/ilink/sqlite-store.ts:1858-1880 | A message with a thousand attempts gets no further reply |
| Quota.ReplyIsStarted | src/ilink/sqlite-store.ts:1971-2004 | A reserved attempt of an open window goes on the wire if the wire of the conversation is free: one reservation becomes one transmission, and no other row changes |
| Quota.OnlyStartable | src/ilink/sqlite-store.ts:1971-1983 | Any other attempt does not |
| Quota.ReplyIsReleased | src/ilink/sqlite-store.ts:616-651 | A pending attempt that is released fails with the reason given and returns its reservation, and no other row changes |
| Quota.NothingToRelease | src/ilink/sqlite-store.ts:616-630 | Releasing anything else changes nothing |
| Quota.SystemMessageIsSent | src/ilink/sqlite-store.ts:1687-1769 | A system message goes on the wire if and only if the account is active, the window is open, unexpired and of its generation, fewer than ten sends are reserved or done and the wire is free |
| Quota.NoWindowNoMessage | src/ilink/sqlite-store.ts:1687-1720 | A message without a window gets no system message |
| Quota.RecoveryReturnsReservations | src/ilink/sqlite-store.ts:567-614 | Recovery fails exactly the pending iLink attempts and returns exactly their reservations |
| FullWindow.TenRepliesThenNone | src/ilink/sqlite-store.ts:1849-1857 | A run in which one window transmits ten replies, all accepted, and the eleventh is recorded as refused for want of quota |
| Reservations.ReservationsExact | src/state/sqlite-store.ts:1259-1272 | After every run the reservations of an open window are its pending attempts and those that suppression failed while it was open |
| Reservations.ReservationsEqualPending | src/ilink/sqlite-store.ts:567-651 | They equal the pending attempts if and only if no suppression ever met a pending attempt of the open window |
| Witnesses.ReservationLeaks | src/state/sqlite-store.ts:1259-1272 | A run in which suppression leaves a reservation without a pending attempt |
| Witnesses.ReplyIsSent | src/ilink/sqlite-store.ts:1971-2004 | A run in which a reply of an iLink window goes on the wire |
| Safety.CounterGuardsAreDead | src/ilink/sqlite-store.ts:1971-2004 | In every reachable state the counter guards of prepare, start, release and recovery cannot fail |
| Safety.SendsAreCounted | src/ilink/sqlite-store.ts:1985-1997 | The history of sends equals the number of attempts that went on the wire, observed at every step of a run |
| Safety.WindowsSound | src/ilink/sqlite-store.ts:1494-1606 | One window per source, at most one open window per conversation, an open one has the account's generation, and a stored secret has an open window |
| Safety.WindowsOnlyRetire | src/ilink/sqlite-store.ts:1580-1606 | A window that is not open never opens again and its counts never shrink, over any continuation |
| Safety.TerminalIsFinal | src/state/sqlite-store.ts:1195-1272 | `completed`, `ignored`, `absorbed` and `suppressed` are never left over any continuation |
| Safety.GroupsStayFlat | src/state/sqlite-store.ts:2258-2412 | A `steering` or `steered` message has a primary of its conversation that is neither waiting nor steered itself; messages that stand alone have none |
| Safety.ToolAttemptsBelong | src/state/sqlite-store.ts:1729-1788 | Waiting and steered messages own no attempt of the tools, settled ones no pending one |
| Safety.NoLateSend | src/ilink/sqlite-store.ts:1971-2004 | Once a message is settled, no tool call of it goes on the wire in any continuation |
| Safety.CompletedMayOweNotice | src/state/sqlite-store.ts:2428-2440 | A run in which a completed message owns a pending queue notice: the clause about pending attempts holds for tool calls only |
| Safety.SendsSerialized | src/ilink/sqlite-store.ts:1975-1983 | At most one iLink attempt of a conversation is on the wire |
| Safety.IndicesDistinct | src/ilink/sqlite-store.ts:1878-1896 | Issued indices of one window are distinct and below `next_send_index` |
| Safety.OutcomeIsFinal | src/state/sqlite-store.ts:1274-1301 | The outcome of an iLink attempt never changes while its row exists |
| Safety.BudgetIsEnforced | src/state/sqlite-store.ts:1864-1889 | The budget check of `finalizeAgentExecution` never fails in a reachable state |
| Safety.AuthorizationIsHistory | src/state/sqlite-store.ts:2079-2195 | In every run the row of a customer is the verdict on all committed evaluations |
| Runs.Always | src/state/sqlite-store.ts:1098-1193 | The whole invariant holds after every run |
| Runs.NextKeeps | src/state/sqlite-store.ts:2197-2451 | Every transaction keeps the invariant and moves each row along the permitted edges |
| PageTheorems.CommitDelivers | src/ilink/sqlite-store.ts:1256-1402 | If the page inserted the open window's source, it alone waits, and its summary and images are those of the waiting messages in inbox order and of the page in page order, each waiting message exactly once; otherwise everything inserted is absorbed and nothing returned |
| PageRows.LiveIsReturned | src/ilink/sqlite-store.ts:1193-1198 | Over every committed page, if the window of an inserted entry is open afterwards: the result names its message if and only if the page is not deferred and the message was not sent before `deferredBefore`; otherwise it names none and counts one as deferred. The stored flag says the same, and the row carries the entry's text |
| PageRows.InsertedRow | src/ilink/sqlite-store.ts:1190-1200 | Every inserted message belongs to the owner's conversation, comes from the customer, and waits with that flag or is absorbed without payload |
| PageRows.InsertedInOrder | src/state/sqlite-store.ts:1351-1425 | The inserted messages stand in the inbox behind all others, in page order |
| PageRows.PageIssuesWindows | src/ilink/sqlite-store.ts:1494-1578 | Every inserted message gets one window, numbered in page order, of the page's generation, for a day from when it was sent but at most a day from now, unused; older windows are untouched or superseded, and open ones keep their context tokens |
| PageRows.ImagesStandInOrder | src/ilink/sqlite-store.ts:1340-1352 | The images of a merged message stand by message as listed, each message's last position first |
| PageFailures.ValidPageOutcome | src/ilink/sqlite-store.ts:1201-1239 | A page that passes the fence and is valid commits if and only if it repeats no stored message of another conversation and none without a window; otherwise it fails with `dedupe_invariant` |
| PageFailures.PageCommitsExactly | src/ilink/sqlite-store.ts:1155-1245 | A page commits if and only if it names the stored cursor and generation of an active account, every entry is of the owner, continues from the cursor and has an id, no inserted one is dated more than five minutes ahead, and what it repeats may be repeated |
| Witnesses.ReplayFails | src/ilink/sqlite-store.ts:1215-1239 | A run of poll, rotation, cleanup and replay that fails so |
| PageProofs.CommitPageKeeps | src/ilink/sqlite-store.ts:1155-1402 | A committed page keeps the invariant |
| WindowFold.CommitFolds | src/ilink/sqlite-store.ts:1505-1578 | The open window after a page is the fold of `entryIsNewer` over the inserted entries; other conversations keep theirs |
| WindowFold.PageOpensLast | src/ilink/sqlite-store.ts:454-507 | From no open window, a page that `compareEntries` orders opens the last inserted entry of page order if and only if that entry stands |
| PageOrder.OrderlyExactly | src/ilink/sqlite-store.ts:481-507 | `compareEntries` is transitive on every page of a shape if and only if the shape is orderly |
| PageOrder.MixedSeqPage | src/ilink/sqlite-store.ts:485-494 | Every shape with two sequenced entries and one without has a page on which `compareEntries` is circular |
| PageOrder.MixedNumericPage | src/ilink/sqlite-store.ts:492-506 | Every shape with another id between two numeric ones has such a page |
| PageOrder.FoldAgreesExactly | src/ilink/sqlite-store.ts:454-479 | On every page that `compareEntries` orders the fold and the sort agree if and only if the last entry of the sort stands: between it and every earlier entry that ties with it lies one of the other kind (sequenced or not), and none of the other kind comes later |
| PageOrder.FoldAgreesWithoutTies | src/ilink/sqlite-store.ts:468-479 | If all entries or none have a provider sequence, they agree if and only if the top place is not tied |
| PageOrder.OneSequencedEntryDisagrees | src/ilink/sqlite-store.ts:468-470 | An orderly page with one sequenced entry, no tie and canonical ids on which they differ |
| PageOrder.LeadingZeroTies | src/ilink/sqlite-store.ts:470-479 | `message:5` and `message:05` tie, and the fold and the sort differ on them |
| PageOrder.CanonicalIdsAgree | src/ilink/sqlite-store.ts:454-507 | With distinct canonical ids they agree if and only if no entry that arrived after the last one of the sort is of the other kind |
| PageOrder.StableSortSorts | src/ilink/sqlite-store.ts:1276-1278 | The sorted page is strictly ordered by `compareEntries` and arrival |
| PageOrder.StableSortIsUnique | src/ilink/sqlite-store.ts:1276-1278 | On an ordered page every stable sort gives the same sequence |
| Paging.HighestStaysOpen | src/ilink/sqlite-store.ts:1513-1530 | Along every run that registers, polls and answers without rotation or deletion of the account or a cleanup that closes the window, the open window is that of the highest provider sequence inserted so far |
| Paging.PagingIndependent | src/ilink/sqlite-store.ts:1513-1530 | Two such runs that insert the same messages leave the same window open, however these are split, ordered or repeated |
| Witnesses.UndisturbedRun | src/ilink/sqlite-store.ts:1201-1239 | Such a run in which two pages insert two messages |
| Cursors.CursorChain | src/ilink/sqlite-store.ts:1125-1153 | Per account and life the committed pages and cursor updates form one chain from the empty cursor to the stored one |
| Cursors.FenceIsExact | src/ilink/sqlite-store.ts:1155-1178 | A page or cursor update passes the fence if and only if it names the number of rotations of the account's present life and the end of that life's chain of cursors |
| Cursors.StaleListenerFenced | src/ilink/sqlite-store.ts:1155-1178 | What was read at one point passes at a later one if and only if the account's life then has had as many rotations and its chain ends at the same cursor |
| Witnesses.FenceSpansLives | src/ilink/sqlite-store.ts:703-774 | A run of registration, rotation, deletion and registration after which a page of the first life commits |
| Cursors.StoredOnce | src/state/sqlite-store.ts:1351-1425 | A provider message is inserted at most once more than its account was deleted |
| Cursors.StaleListenerCommitsNothing | src/ilink/sqlite-store.ts:1165-1178 | A page with a generation from before a rotation changes nothing, after any continuation without deletion of the account |
| Listener.Listener.Poll | src/ilink/listener.ts:306-363 | A round commits under the listener's own generation and cursor or changes neither; its cursor stays the stored one or it is fenced out and commits nothing; every key it was given is of a message sent since its start, and is handed over or still pending, in order |
| Delivery.DeliveryConfluent | src/state/sqlite-store.ts:2505-2594 | Acknowledgement and delivery failure commute up to time stamps if and only if no failure of another type was recorded before |
| Delivery.FailureIsMatched | src/state/sqlite-store.ts:1240-1257 | In either order the attempt has failed and its failure row names it |
| Authorization.AuthorizationRefines | src/state/sqlite-store.ts:2104-2155 | The counter is the longest streak of triggers from one account at the end of the history, and a customer is authorized exactly when a streak first reached the number required, three by default and at least one |
| Authorization.AuthorizationLasts | src/state/sqlite-store.ts:2104-2122 | Authorization survives every later evaluation |
| Outcomes.EvaluationDecides | src/state/sqlite-store.ts:2079-2123 | Which decision an evaluation comes to: a repeated message and an authorized customer change nothing, and the message authorizes the customer if and only if the row says so afterwards |
| Outcomes.BlockedIsIgnored | src/state/sqlite-store.ts:2124-2155 | A blocked message is ignored and loses its payload |
| Outcomes.AuthorizedIsWelcome | src/state/sqlite-store.ts:2156-2195 | A message that authorizes its customer is ready and its confirmation is pending |
| Outcomes.NoticeInTheWay | src/state/sqlite-store.ts:2156-2195 | If the message already owns its first attempt, an authorizing evaluation keeps a confirmation that is there, and fails if the attempt is anything else |
| Authorization.EvaluateKeeps | src/state/sqlite-store.ts:2093-2194 | An evaluation keeps the invariant |
| Executor.ExecutionSettles | src/ilink/executor.ts:175-405 | Every tool call leaves its attempt accepted, failed or uncertain if its row survives, whatever fails or expires and whatever others do meanwhile, with clock readings of their own at every step |
| Executor.ExpiryIsRecorded | src/ilink/executor.ts:175-405 | If the window expires between reservation and transmission, the attempt fails with that reason and nothing goes on the wire |
| Executor.TransmissionOutcome | src/ilink/executor.ts:371-405 | A transmission that nobody else touches ends as the provider answered: accepted with its id, failed with the code, or uncertain |
| Executor.CallOutcome | src/ilink/executor.ts:204-345 | Every call that goes through on its own ends as it must: cancelled without its context or media, failed for expiry if the window expired in between, and otherwise as the provider answered |
| InboxProofs.DeferActiveKeeps | src/state/sqlite-store.ts:2387-2412 | Deferring a group keeps groups flat and leaves no tool attempt with a waiting message |
| InboxProofs.SuppressKeeps | src/state/sqlite-store.ts:1259-1272 | Suppression keeps the invariant although it does not return reservations |
| InboxProofs.FinalizeKeeps | src/state/sqlite-store.ts:1831-1938 | Finalizing an execution keeps the invariant |
| Outcomes.FinalizesExactly | src/state/sqlite-store.ts:1840-1912 | In a reachable state an execution is finalized if and only if the report names every tool attempt of the message once, one to a thousand, all of them over, the message is being worked on, ready or completed, and every message named was steered into it |
| Outcomes.FinalizedRows | src/state/sqlite-store.ts:1900-1925 | The message is completed and the messages steered into it are absorbed, all without payload; no session of the message is live at any later time; every other message and session and all attempts are unchanged |
| Outcomes.MessageMoves | src/state/sqlite-store.ts:2197-2358 | Claiming, preparing, ignoring, completing, steering, confirming and requeueing: each is made if and only if the status allows it, changes one row as it should, and otherwise nothing |
| Outcomes.FailureRequeues | src/state/sqlite-store.ts:2360-2385 | A failed message keeps its payload, and exactly those steered into it that reached no turn wait again |
| Outcomes.SuppressionReaches | src/state/sqlite-store.ts:1259-1272 | Suppression reaches every member of the group that is not final and the pending attempts of its message, and nothing else |
| Outcomes.DeferralTouches | src/state/sqlite-store.ts:2387-2412 | A group is deferred if and only if nothing but approvals was sent and some member is active; its active members wait as deferred, and no other row changes |
| Outcomes.PromotionTouches | src/state/sqlite-store.ts:1470-1530 | Promotion makes exactly the deferred waiting messages of one conversation live |
| InboxProofs.RecoverStartupKeeps | src/state/sqlite-store.ts:2606-2643 | Startup recovery keeps the invariant |
| Upkeep.StartupIsQuiet | src/state/sqlite-store.ts:2606-2643 | After startup nothing is on the wire and no session is ever live again; what was on the wire is uncertain, steering that reached no turn waits again, and nothing else changes but what settles |
| Upkeep.StartupCompletes | src/state/sqlite-store.ts:2619-2632 | An interrupted message with nothing pending, behind which the customer waits for no more, is completed at startup |
| Upkeep.StartupCompletesOnly | src/state/sqlite-store.ts:2619-2632 | Only such messages are |
| RetentionProofs.CleanupKeeps | src/state/sqlite-store.ts:2758-2864 | Cleanup keeps the invariant |
| LedgerProofs.RetireKeeps | src/ilink/sqlite-store.ts:1580-1606 | Retiring windows keeps the invariant |
| LedgerProofs.RotateAccountKeeps | src/ilink/sqlite-store.ts:703-774 | Rotation keeps the invariant, so no open window keeps an old generation |
| Upkeep.AccountIsRotated | src/ilink/sqlite-store.ts:703-774 | An account is rotated if and only if its owner names its present generation; the generation grows by one, its open windows are cancelled with their pending attempts, sessions and tokens, and no other row changes |
| Upkeep.OwnersNeverShared | src/ilink/sqlite-store.ts:653-702 | Over every run no owner has two accounts |
| Upkeep.AccountIsRegistered | src/ilink/sqlite-store.ts:653-702 | An account is registered if and only if its key and its owner are free |
| LedgerProofs.DeleteAccountKeeps | src/ilink/sqlite-store.ts:1047-1112 | Deleting an account leaves no dangling row |
| IlinkStore.IlinkStore.CommitPollPage | src/ilink/sqlite-store.ts:1155-1402 | The transaction, with its loops and rollbacks, is `CommitPage` |
| IlinkStore.IlinkStore.ValidatePage | src/ilink/sqlite-store.ts:1187-1189 | The first invalid entry decides the error |
| IlinkStore.IlinkStore.InsertPageWindows | src/ilink/sqlite-store.ts:1201-1239 | The loop over the page inserts images and windows of new messages and checks duplicates, up to the first failure |
| IlinkStore.IlinkStore.InsertReplyWindow | src/ilink/sqlite-store.ts:1505-1578 | The open window makes way exactly for a newer entry |
| IlinkStore.IlinkStore.Merge | src/ilink/sqlite-store.ts:1276-1394 | Absorbing, merging summaries and keeping the latest images, as `Deliver` |
| IlinkStore.IlinkStore.AbsorbInserted | src/ilink/sqlite-store.ts:1268-1275 | One statement per message absorbs every inserted message but the open one |
| IlinkStore.IlinkStore.RetireWindow | src/ilink/sqlite-store.ts:1580-1606 | Attempts, sessions, window and secret of a retired window |
| IlinkStore.IlinkStore.CancelOpenWindows | src/ilink/sqlite-store.ts:858-866 | Retiring one window after another retires all open windows of the account |
| IlinkStore.IlinkStore.Rotate | src/ilink/sqlite-store.ts:703-774 | Rotation with its three refusals |
| LedgerProofs.DeletedWithoutTrace | src/ilink/sqlite-store.ts:1047-1112 | After a deletion no account, message, attempt, session or window of the account is left and no secret lacks its window, while accounts, messages, attempts and windows of everybody else are unchanged |
| Upkeep.DeletionTakesItsOwn | src/ilink/sqlite-store.ts:1047-1112 | A deletion takes the images and failure reports of the account with it, and nobody else's |
| Cursors.OneMovePerCursor | src/ilink/sqlite-store.ts:1125-1153 | Whoever moves the cursor of an account, by a page or an update, no other page or update that starts from the old cursor commits any more |
| IlinkStore.IlinkStore.Prepare | src/ilink/sqlite-store.ts:1828-1944 | A reservation, a recorded rejection, or the error |
| IlinkStore.IlinkStore.Start | src/ilink/sqlite-store.ts:1971-2004 | The reserved attempt goes on the wire and its reservation becomes a transmission, or both updates are undone |
| IlinkStore.IlinkStore.Release | src/ilink/sqlite-store.ts:616-651 | A pending attempt fails and returns its reservation |
| IlinkStore.IlinkStore.Recover | src/ilink/sqlite-store.ts:567-614 | Window by window, all pending attempts fail and return their reservations, or nothing changes |
| IlinkStore.IlinkStore.StartSystemAttempt | src/ilink/sqlite-store.ts:1687-1769 | A system message takes quota and goes on the wire at once |
| CoreStore.CoreStore.InsertInboundMessages | src/state/sqlite-store.ts:1351-1425 | Arrivals that are not stored are inserted in order; it succeeds if and only if every arrival belongs to the conversation stored for its identity |
| CoreStore.CoreStore.IngestPage | src/state/sqlite-store.ts:1427-1468 | A page of the synchronization moves the cursor only from the expected one |
| Outcomes.PageIsIngested | src/state/sqlite-store.ts:1427-1468 | A page of the synchronization moves the cursor and stores what is new as it came, behind the rest; nothing else changes |
| InboxProofs.SteeringUndone | src/state/sqlite-store.ts:2258-2358 | Requeueing undoes steering: the message waits again, as before but for its turn and time |
| CoreStore.CoreStore.FailActive | src/state/sqlite-store.ts:2360-2385 | The message fails and lost steering starts over |
| InboxProofs.DeferredGroup | src/state/sqlite-store.ts:2387-2412 | Every member of a deferred group waits for later, flat, and owns no tool attempt; the group's message has no live session |
| CoreStore.CoreStore.EvaluateAuthorization | src/state/sqlite-store.ts:2079-2195 | The evaluation of a received message, with its rollback |
| InboxProofs.OneLiveSession | src/state/sqlite-store.ts:1564-1629 | From its creation on a new session is the only live one of its conversation; it lives for a second to an hour, on iLink it is bound to the open and unexpired window of its boundary, and sessions of other conversations are unchanged |
| Outcomes.SessionOpens | src/state/sqlite-store.ts:1564-1629 | A session is opened if and only if its message is worked on and the boundary is of its conversation and, on iLink, has an open unexpired window |
| Outcomes.SessionsEnd | src/state/sqlite-store.ts:1635-1655 | A closed session is never live again, and no other is touched |
| CoreStore.CoreStore.ReserveSend | src/state/sqlite-store.ts:1729-1787 | A WeChat KF send is inserted and claimed at once, five at most |
| Outcomes.SendIsReserved | src/state/sqlite-store.ts:1729-1787 | A KF send is reserved if and only if the session lives, its message is worked on, no newer message of the customer has come in, and fewer than five sends were made |
| Outcomes.ReservedIsSent | src/state/sqlite-store.ts:1757-1787 | It is on the wire at once, as the next attempt of its message |
| Outcomes.NoticeIsReserved | src/state/sqlite-store.ts:1793-1829 | A queue notice is reserved once, for a live message that waits on the KF channel and has room for it |
| Outcomes.PendingIsSent | src/state/sqlite-store.ts:2481-2503 | A pending KF send goes on the wire if and only if no other of its conversation is there |
| CoreStore.CoreStore.SettleSource | src/state/sqlite-store.ts:1195-1238 | The source completes once nothing of it is outstanding |
| Outcomes.SettlesWhenDone | src/state/sqlite-store.ts:1195-1238 | The source is completed if and only if it is being worked on, none of its attempts is pending or on the wire, none of its sessions is live, and no later message of the customer waits |
| CoreStore.CoreStore.Finish | src/state/sqlite-store.ts:1274-1301 | An attempt on the wire gets its outcome |
| Outcomes.LossIsRecorded | src/state/sqlite-store.ts:1274-1301 | An unknown outcome makes an attempt on the wire uncertain and a refusal makes it fail, each with its code, and the message settles |
| Outcomes.OutcomeStays | src/state/sqlite-store.ts:1283-1287 | What is no longer on the wire keeps its outcome |
| CoreStore.CoreStore.Complete | src/state/sqlite-store.ts:2505-2526 | An acknowledgement meets a failure recorded before |
| Outcomes.AcceptanceIsRecorded | src/state/sqlite-store.ts:2505-2526 | An acknowledged attempt is accepted with its id, unless a failure of a KF message was reported for it before |
| Outcomes.AcceptanceIsTaken | src/state/sqlite-store.ts:2505-2515 | An acknowledgement is taken if and only if it names an id that no other attempt of the channel has |
| Outcomes.EarlierFailureWins | src/state/sqlite-store.ts:2516-2526 | After an earlier report the attempt has failed instead, with the type reported |
| CoreStore.CoreStore.RecordFailure | src/state/sqlite-store.ts:2562-2594 | A failure is recorded and revokes the accepted attempt with its id |
| Outcomes.FailureRevokes | src/state/sqlite-store.ts:2562-2594 | A reported failure revokes the KF attempt accepted with its id, and no other attempt changes |
| Outcomes.FailureIsKept | src/state/sqlite-store.ts:2562-2580 | A reported failure is kept for its id, and no other report is touched |
| Delivery.RejectionIsFinal | src/state/sqlite-store.ts:2528-2553 | A refused attempt has failed, a second refusal changes nothing, and its message completes if and only if nothing else of it is outstanding |
| CoreStore.CoreStore.FinalizeExecution | src/state/sqlite-store.ts:1831-1938 | The message completes, its steering is absorbed and its sessions close, or nothing changes |
| CoreStore.CoreStore.RecoverAtStartup | src/state/sqlite-store.ts:2606-2643 | Sessions close, sends on the wire become uncertain, their sources settle one by one, lost steering starts over |
| RetentionProofs.CleanupSpares | src/state/sqlite-store.ts:2758-2864 | Cleanup keeps every message and its status, every attempt that is pending, on the wire or uncertain, every open unexpired window with its secret, and the window of every attempt it keeps |
| Upkeep.CleanupRemoves | src/state/sqlite-store.ts:2758-2864 | Cleanup removes exactly this: payloads of final messages after a week, settled attempts after a month and their metadata after a week, failure reports after a month, sessions expired or closed an hour ago, tokens of expired windows, retired windows without attempts after a month; and it closes lapsed windows |
| Scheduler.SlotsAlwaysSound | src/services/conversation-processor.ts:292-317 | After every run of operations the pool is bounded, low-priority work runs alone, nobody waits without a reason, and every waiter was answered once or still waits |
| Scheduler.ApplySound | src/services/conversation-processor.ts:342-419 | Every operation keeps the slots sound |
| Scheduler.BoundedBypass | src/services/conversation-processor.ts:380-419 | A high-priority waiter at position i runs with high priority after at most i + 1 releases of active conversations |
| Scheduler.AskIsPlaced | src/services/conversation-processor.ts:342-378 | A request of an idle conversation is granted, with its own priority, if and only if there is room; otherwise it stands last in the queue of its own priority, and the other queue is unchanged |
| Scheduler.AskElsewhere | src/services/conversation-processor.ts:342-351 | A paused channel is refused, and an active conversation goes on as it is |
| Scheduler.HighAskIsServed | src/services/conversation-processor.ts:342-385 | From the request on: an idle conversation that asks for high priority runs with high priority after at most one release more than there were high waiters, whatever else happens while its channel runs |
| Scheduler.PromotedIsServed | src/services/conversation-processor.ts:403-419 | A low waiter that is promoted no longer waits as one, and runs with high priority after at most one release more than there were high waiters |
| Scheduler.ReleaseWakes | src/services/conversation-processor.ts:292-317 | A release gives its slot to the first high waiter; with none and nothing else active, to the first low one |
| Scheduler.PauseStops | src/services/conversation-processor.ts:1235-1247 | A paused channel is refused and none of its conversations waits; what is active goes on, and high waiters of other channels lose no place |
| Scheduler.ActiveIsRaised | src/services/conversation-processor.ts:403-407 | Promoting an active conversation raises it to high priority |
| Scheduler.ResumeGoes | src/services/conversation-processor.ts:1235-1247 | Resuming a channel undoes the refusal and nothing else |
| Scheduler.Scheduler.constructor | src/services/conversation-processor.ts:183-186 | The pool has one to ten slots |
| Scheduler.Scheduler.WakeWaiters | src/services/conversation-processor.ts:292-317 | The loop admits high waiters in order, then at most one low one |
| Scheduler.Scheduler.AcquireSlot | src/services/conversation-processor.ts:342-378 | A request is refused, granted or queued; the slots stay sound, and a direct grant finds no high waiter, for low priority none at all |
| Scheduler.Scheduler.ReleaseSlot | src/services/conversation-processor.ts:380-385 | A slot is given back and waiters are woken |
| Scheduler.Scheduler.PromoteWaiter | src/services/conversation-processor.ts:403-419 | A low waiter joins the end of the high queue |
| Scheduler.Scheduler.SetChannelEnabled | src/services/conversation-processor.ts:1235-1247 | Pausing answers the waiters of the channel without a slot |
| SyncWorker.SyncSafety | src/services/wecom-sync.ts:119-269 | In every reachable state no request is without worker or timer, live requests are pending as live, the active count is the number of holders and at most four, waiters were answered once or still wait, and no drain goes beyond its hundredth page |
| SyncWorker.NoLostRequest | src/services/wecom-sync.ts:157-241 | Until the stop a request stays on the books, with a worker or a timer, until a drain that took it has fetched its last page; a drain that was under way before it does not count, nor does a deferred one for a live request |
| SyncWorker.RequestIsBooked | src/services/wecom-sync.ts:119-133 | A request is on those books as soon as it is made, and during a drain it waits for the next one |
| SyncHistory.DrainKnowsItsRequests | src/services/wecom-sync.ts:119-185 | Over every run: a drain is deferred if and only if every request it took, those put back by failed drains included, was a deferred one; it is live if and only if one was live; its attempt is the fewest failures among them; the same of what waits; and an account has new live input if and only if a live request was made that no drain has taken |
| SyncHistory.CatchUpYields | src/services/wecom-sync.ts:311-322 | While a deferred drain is in a provider call, a live request of the account ends it with that page, and the next drain of the account is live, whatever other steps come between |
| SyncHistory.DrainFetchesPages | src/services/wecom-sync.ts:267-336 | A drain goes on page after page up to the hundredth; with yet another page to come it fails there and is tried again |
| SyncHistory.PageEndsDrain | src/services/wecom-sync.ts:267-336 | Where a drain stands after each page: failed, stopped, completed, or asking for a slot again |
| SyncHistory.FailureIsRetried | src/services/wecom-sync.ts:157-241 | A failed drain gives its requests back, with a timer to try them again |
| SyncWorker.FirstComeFirstServed | src/services/wecom-sync.ts:243-265 | The waiter at position i gets exactly the slot that is given back next after i others |
| SyncWorker.NoCallAfterStop | src/services/wecom-sync.ts:392-399 | After the stop, over any continuation, every provider call under way was under way at the stop |
| SyncHistory.NothingAfterStop | src/services/wecom-sync.ts:392-399 | After the stop, over any continuation, nothing is accepted, nothing waits, no timer is set and no worker begins |
| SyncWorker.ApplyKeeps | src/services/wecom-sync.ts:135-185 | Every step keeps the invariant |
| SyncWorker.AcquireKeeps | src/services/wecom-sync.ts:243-250 | A slot request keeps the count of holders exact and at most four, the queue equal to the workers that wait, and every worker answered once or waiting |
| SyncWorker.SyncService.ReleaseSyncSlot | src/services/wecom-sync.ts:252-265 | The slot goes to the first waiter |
| SyncWorker.SyncService.Enqueue | src/services/wecom-sync.ts:119-133 | Requests coalesce and start a worker |
| SyncWorker.SyncService.ResumeWorker | src/services/wecom-sync.ts:135-185 | What a worker does after each await and in its `finally` |
| SyncWorker.SyncService.FinishCall | src/services/wecom-sync.ts:284-336 | The end of a provider call: slot first, then page, interruption or end of the drain |
| SyncWorker.TimerFiresOnce | src/services/wecom-sync.ts:220-226 | A timer that has fired, or was cancelled or replaced, changes nothing whenever it fires later, over any continuation |
| SyncWorker.SyncService.StopService | src/services/wecom-sync.ts:392-399 | Every waiter is refused, in order |
| Approvals.OneReplyPerRequest | src/services/codex-app-server.ts:425-480 | Every request with an id was answered once, withdrawn once, or is the one pending under the id |
| Approvals.AcceptedOnlyAlive | src/services/codex-app-server.ts:452-460 | Among the replies that any step writes is an `accept` if and only if the step is an allowed ruling that meets its own registration and nothing has ended that registration since, even when ids are reused |
| Approvals.DeclinedByHandler | src/services/codex-app-server.ts:447-460 | `decline` is written if and only if the handler of a standing registration declines on an open connection |
| Approvals.CancelledWhen | src/services/codex-app-server.ts:437-517 | `cancel` is written if and only if a standing registration's timer fires, its handler calls it off, or a patch about its item arrives, on an open connection |
| Approvals.RefusedWhen | src/services/codex-app-server.ts:413-445 | A request is refused if and only if it is of another kind, malformed, reuses the id of a standing registration, or meets thirty-two of them |
| Approvals.PendingIsAlive | src/services/codex-app-server.ts:497-547 | An approval is pending if and only if its own request registered it and no later step ended it |
| Approvals.RunSound | src/services/codex-app-server.ts:430-445 | At most 32 approvals are pending, with distinct ids |
| Approvals.Server.HandleApproval | src/services/codex-app-server.ts:425-462 | Registration, or a refusal that also ends a pending approval of the id |
| Approvals.HandleBalances | src/services/codex-app-server.ts:413-462 | Every message keeps the balance of each id: requests asked, refused ones included, equal replies, withdrawals and the pending one |
| Approvals.Server.ClearApprovals | src/services/codex-app-server.ts:473-480 | The loop removes exactly the selected approvals |
| Approvals.Server.SettleApproval | src/services/codex-app-server.ts:437-471 | A verdict or a timeout answers its own registration only |
| Approvals.Server.CancelPatched | src/services/codex-app-server.ts:508-517 | A patch update cancels every approval about its item, in order of registration |
| Approvals.Server.Notify | src/services/codex-app-server.ts:499-547 | Resolution, end of thread or turn, and closing withdraw approvals |

## Left out

- SQL text, schema migration, write-ahead log and file permissions: only table effects and transaction boundaries are modelled.
- Cryptography, media, network clients, IPC, HTTP routes, child processes, command line and user interface.
- Columns that no modelled rule reads: `client_input_id` (a repeated claim that only rewrites it changes nothing here), steering boundary, error texts, audit columns, artifacts, media catalogue, conversation rows.
- Runtime switches and access levels of iLink accounts, login offers and enrollment: enrollment reaches the modelled tables through registration and rotation only.
- Validation of JSON, formats, text limits and safe integers: numbers are unbounded.
- The retention of stored iLink images by age: images carry no time stamp here.
- Images of an entry are listed in the order of their positions.
- The choice of candidate in `beginNextSend` and of conversation in `activateNextDeferredConversation`: the candidate is an argument.
- Transitions of one statement (`markInboundPreparing`, `markInboundIgnored`, `markInboundCompleted`, `confirmInboundSteered`, `requeueInboundSteering`, closing of sessions, `reserveQueueNotice`, `beginNextSend`, `markSendUncertain`, `registerAccount`) are functions only, without a method.
- The sort of a page on which `compareEntries` is not transitive is engine-defined; the model uses insertion there.
- CoreStore.CoreStore.RecordFailure: that provider message ids are unique per channel is a precondition, the unique index of the table.
- Executor.ExecutionSettles: the random client id is assumed new; that nobody else drives the attempt or uses its key again while the call lasts stands for the queue per account.
- Outcomes.FinalizedRows: what is said of closed sessions, here and in the other rows, holds of clock readings above zero, since zero marks a session as open.
- PageTheorems.CommitDelivers: image locators are opaque strings and keep their relative order.
- Scheduler.BoundedBypass: low-priority waiters have no bound, and neither has the source.
- Interrupting a running low-priority turn and yielding to live input only lead to releases, which are events of the scheduler; the turn itself is opaque, and a request that waits for a turn to complete is one made then.
- WeCom synchronization: promotion of conversations after a live drain, callback tokens and retry delays.
- Codex approvals: a failed write closes the connection and is seen as the closing; the content of items and the outcome of turns are not part of this model.
- Listener.Listener.Poll: network calls, backoff, notifications and the queue of refreshes; a response is an argument, and so is whether the host accepts the keys.
