/** Every transaction of the two stores as an event, and the database after a run of events. */
module Events {
  import opened Basics
  import opened Tables
  import opened PageOrder
  import opened Ledger
  import opened Inbox
  import opened PageCommit
  import opened Authorization

  datatype Event =
    // accounts and cursors
    | Register(account: string, owner: string)
    | Rotate(account: string, owner: string, generation: nat)
    | Delete(account: string)
    | SetCursor(account: string, generation: nat, expected: string, next: string)
    | Poll(page: Page)
    | Ingest(account: string, expected: string, next: string, arrivals: seq<Arrival>)
    // reply windows
    | Prepare(token: Token, persistRejection: bool)
    | Start(token: Token, attempt: AttemptKey)
    | Release(attempt: AttemptKey, expired: bool)
    | Recover
    | SystemSend(key: MessageKey, origin: Origin)
    // messages
    | Promote(conv: Conversation)
    | Evaluated(evaluation: Evaluation, peer: string)
    | Claimed(key: MessageKey)
    | Prepared(key: MessageKey, turnId: string)
    | Ignore(key: MessageKey)
    | Complete(key: MessageKey)
    | Steer(key: MessageKey, primary: MessageKey)
    | Confirm(key: MessageKey, turnId: string)
    | Requeue(key: MessageKey, primary: MessageKey)
    | Fail(key: MessageKey)
    | Defer(key: MessageKey)
    | SuppressGroup(key: MessageKey)
    | Finished(key: MessageKey, steered: set<MessageKey>, reported: seq<AttemptKey>)
    // sessions and sends
    | OpenSession(token: Token, key: MessageKey, boundary: MessageKey, ttl: nat)
    | EndSession(token: Token)
    | EndSessions(key: MessageKey)
    | AgentSend(token: Token)
    | Notice(key: MessageKey)
    | NextSend(attempt: AttemptKey)
    | Accept(attempt: AttemptKey, providerId: string)
    | Lose(attempt: AttemptKey, code: string)
    | Refuse(attempt: AttemptKey, code: string)
    | DeliveryFailed(providerId: string, failType: int)
    // maintenance
    | Restart(sources: seq<MessageKey>)
    | Retain

  /** What the callers of a transaction guarantee. */
  ghost predicate Enabled(db: Db, e: Event, now: nat) {
    match e
    case SystemSend(_, origin) => origin != McpTool
    case Evaluated(evaluation, _) => evaluation.key in db.messages ==> db.messages[evaluation.key].status == Received
    case Complete(key) => key in db.messages ==> db.messages[key].status == Received
    case OpenSession(token, _, _, _) => token !in db.sessions
    case Restart(sources) => (set k | k in sources) == StartupSources(Interrupted(db, now))
    case _ => true
  }

  /** The database after an event; a transaction that fails leaves it unchanged. */
  ghost function Apply(db: Db, e: Event, now: nat): Db
    requires Enabled(db, e, now)
  {
    match e
    case Register(account, owner) => After(db, RegisterAccount(db, account, owner))
    case Rotate(account, owner, generation) => After(db, RotateAccount(db, account, owner, generation, now))
    case Delete(account) => After(db, DeleteAccount(db, account, now))
    case SetCursor(account, generation, expected, next) =>
      After(db, CompareAndSetCursor(db, account, generation, expected, next))
    case Poll(page) => After(db, CommitPage(db, page, now))
    case Ingest(account, expected, next, arrivals) =>
      After(db, IngestSyncPage(db, account, expected, next, arrivals, now))
    case Prepare(token, persistRejection) => After(db, PrepareReply(db, token, persistRejection, now))
    case Start(token, attempt) => After(db, StartReply(db, token, attempt, now))
    case Release(attempt, expired) => After(db, ReleasePending(db, attempt, expired, now))
    case Recover => After(db, RecoverPending(db, now))
    case SystemSend(key, origin) => After(db, StartSystem(db, key, origin, now))
    case Promote(conv) => After(db, PromoteDeferred(db, conv, now))
    case Evaluated(evaluation, peer) => After(db, Evaluate(db, evaluation, peer, now))
    case Claimed(key) => After(db, Claim(db, key, now))
    case Prepared(key, turnId) => After(db, MarkPreparing(db, key, turnId, now))
    case Ignore(key) => After(db, MarkIgnored(db, key, now))
    case Complete(key) => After(db, MarkCompleted(db, key, now))
    case Steer(key, primary) => After(db, BeginSteering(db, key, primary, now))
    case Confirm(key, turnId) => After(db, ConfirmSteered(db, key, turnId, now))
    case Requeue(key, primary) => After(db, RequeueSteering(db, key, primary, now))
    case Fail(key) => After(db, FailInbound(db, key, now))
    case Defer(key) => After(db, DeferActive(db, key, now))
    case SuppressGroup(key) => After(db, Suppress(db, key, now))
    case Finished(key, steered, reported) => After(db, Finalize(db, key, steered, reported, now))
    case OpenSession(token, key, boundary, ttl) => After(db, CreateSession(db, token, key, boundary, ttl, now))
    case EndSession(token) => After(db, CloseSession(db, token, now))
    case EndSessions(key) => After(db, CloseSessionsOf(db, key, now))
    case AgentSend(token) => After(db, ReserveAgentSend(db, token, now))
    case Notice(key) => After(db, ReserveQueueNotice(db, key, now))
    case NextSend(attempt) => After(db, BeginSend(db, attempt, now))
    case Accept(attempt, providerId) => After(db, CompleteSend(db, attempt, providerId, now))
    case Lose(attempt, code) => After(db, MarkUncertain(db, attempt, code, now))
    case Refuse(attempt, code) => After(db, FailSend(db, attempt, code, now))
    case DeliveryFailed(providerId, failType) => After(db, MarkMsgFailed(db, providerId, failType, now))
    case Restart(sources) => After(db, RecoverStartup(db, sources, now))
    case Retain => After(db, Cleanup(db, now))
  }

  /** An event and the clock reading of its transaction; readings need not grow. */
  datatype Tick = Tick(event: Event, now: nat)

  ghost function Next(db: Db, t: Tick): Db {
    if Enabled(db, t.event, t.now) then Apply(db, t.event, t.now) else db
  }

  /** The database after a run that starts with empty tables. */
  ghost function Final(run: seq<Tick>): Db {
    if run == [] then EMPTY_DB else Next(Final(run[..|run| - 1]), run[|run| - 1])
  }
}
