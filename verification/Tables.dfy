/**
 The tables that the core store and the iLink store share, one map per table.

 A hashed key (`message_key`, `attempt_key`) is the tuple that is hashed, because the hash is taken
 as injective. `inbox` lists message keys in AUTOINCREMENT order: row number n of
 `inbound_messages` was inserted for `inbox[n - 1]`.
 */
module Tables {
  import opened Basics

  /** Sends that one reply window permits (`ILINK_REPLY_WINDOW_MAX_SENDS`). */
  const MAX_SENDS: nat := 10
  /** Lifetime of a reply window in milliseconds. */
  const WINDOW_LIFETIME: nat := 24 * 60 * 60 * 1000
  /** How far ahead of the local clock a provider timestamp may lie. */
  const MAX_CLOCK_SKEW: nat := 5 * 60 * 1000
  /** `send_index` is below this bound in every row of `send_attempts`. */
  const MAX_ATTEMPTS: nat := 1000

  datatype Channel = WechatKf | WeixinIlink

  datatype Conversation = Conversation(channel: Channel, account: string, peer: string)

  datatype MessageKey = MessageKey(channel: Channel, account: string, providerId: string)

  datatype AttemptKey = AttemptKey(source: MessageKey, index: nat)

  type WindowId = nat

  type Token = nat

  datatype AccountStatus = Active | Paused | Disabled | Revoked

  datatype Account = Account(owner: string, generation: nat, status: AccountStatus, cursor: string)

  datatype InboundStatus =
    | Received | Processing | Preparing | Ready | Completed | Steering
    | Steered | Absorbed | Failed | Ignored | Suppressed

  /** The part of a stored message that the stores rewrite; `body` is everything else. */
  datatype Payload = Payload(body: string, summary: string, attachments: nat)

  datatype Inbound = Inbound(
    inboxSeq: nat,
    conv: Conversation,
    customer: bool,
    status: InboundStatus,
    deferred: bool,
    primary: Option<MessageKey>,
    turnId: string,
    payload: Option<Payload>,
    updatedAt: nat)

  datatype WindowState = Open | Superseded | Closed | Cancelled

  datatype Window = Window(
    conv: Conversation,
    generation: nat,
    source: MessageKey,
    sourceSeq: nat,
    providerSeq: Option<nat>,
    issuedAt: nat,
    expiresAt: nat,
    next: nat,
    reserved: nat,
    transmitted: nat,
    state: WindowState,
    updatedAt: nat)

  datatype SendStatus = Pending | Sending | Accepted | FailedSend | Uncertain

  datatype Origin = McpTool | QueueNotice | AuthorizationNotice | AgentApproval

  datatype Reason =
    | NoReason | AbandonedBeforeTransmit | CancelledBeforeTransmit | ReplyWindowExpired
    | ReplyQuotaExhausted | SupersededByNewer | GenerationChanged | AccountDeleted
    | SuppressedGroup | StartupRecovery | MsgSendFail | ProviderError(code: string)

  /**
   A row of `send_attempts`. `windowIndex` is the `replyWindowSendIndex` kept in the metadata;
   `issued` is a history variable: the row was inserted holding quota of its window (it was reserved
   or already sending), not as a recorded rejection.
   */
  datatype Attempt = Attempt(
    conv: Conversation,
    window: Option<WindowId>,
    origin: Origin,
    status: SendStatus,
    providerMessageId: string,
    reason: Reason,
    failType: int,
    windowIndex: Option<nat>,
    issued: bool,
    updatedAt: nat)

  datatype Session = Session(
    source: MessageKey,
    conv: Conversation,
    window: Option<WindowId>,
    boundarySeq: nat,
    expiresAt: nat,
    closedAt: nat)

  /** A row of `delivery_failures`. */
  datatype Failure = Failure(failType: int, observedAt: nat, matched: Option<AttemptKey>, matchedAt: nat)

  /** A row of `authorizations`. */
  datatype Auth = Auth(authorized: bool, count: nat, lastAccount: string, lastMessage: Option<MessageKey>)

  /**
   The database. `sent` is a history variable: the multiset of windows, one element for every time
   an attempt of the window entered `sending`.
   */
  datatype Db = Db(
    accounts: map<string, Account>,
    inbox: seq<MessageKey>,
    messages: map<MessageKey, Inbound>,
    images: map<MessageKey, seq<string>>,
    windows: map<WindowId, Window>,
    nextWindow: nat,
    secrets: set<WindowId>,
    attempts: map<AttemptKey, Attempt>,
    sessions: map<Token, Session>,
    failures: map<string, Failure>,
    auths: map<string, Auth>,
    cursors: map<string, string>,
    sent: multiset<WindowId>)

  const EMPTY_DB := Db(map[], [], map[], map[], map[], 1, {}, map[], map[], map[], map[], map[], multiset{})

  datatype Error =
    | InvalidInput | AccountNotFound | AccountExists | OwnerConflict | AccountNotActive
    | GenerationConflict | CursorConflict | PairMismatch | DedupeInvariant
    | ReplyWindowNotFound | ReplyWindowInactive | ReplyWindowExpiredError | ReplyQuotaExhaustedError
    | InvalidAgentSession | SendInProgress | UnknownMessage | UnknownAttempt | WrongStatus
    | BoundaryUnavailable | BudgetExceeded | InvariantConflict | UniqueViolation
    // The `attempt_conflict` exits: the first is a caller's mistake, the others are the exits
    // that guard the counters of a window.
    | AttemptNotReservable | CounterConflict

  /** What one transaction does: commit a new database, or roll back with an error. */
  datatype Txn<+T> = Commit(db: Db, value: T) | Rollback(error: Error)

  /** The database after a transaction. */
  function After<T>(before: Db, txn: Txn<T>): Db {
    if txn.Commit? then txn.db else before
  }

  predicate Live(now: nat, s: Session) { s.closedAt == 0 && s.expiresAt > now }

  /** The first index in `lo..hi` holding a window that `Wanted` accepts. */
  function FindOpen(ws: map<WindowId, Window>, conv: Conversation, lo: nat, hi: nat): (r: Option<WindowId>)
    ensures r.Some? ==> lo <= r.value < hi && r.value in ws && ws[r.value].conv == conv && ws[r.value].state == Open
    ensures r.None? ==> forall w :: lo <= w < hi && w in ws ==> !(ws[w].conv == conv && ws[w].state == Open)
    decreases hi - lo
  {
    if lo >= hi then None
    else if lo in ws && ws[lo].conv == conv && ws[lo].state == Open then Some(lo)
    else FindOpen(ws, conv, lo + 1, hi)
  }

  /** The open window of a conversation. */
  function OpenWindow(db: Db, conv: Conversation): Option<WindowId> {
    FindOpen(db.windows, conv, 0, db.nextWindow)
  }

  /** The window whose source is a given message. */
  function FindSource(ws: map<WindowId, Window>, key: MessageKey, lo: nat, hi: nat): (r: Option<WindowId>)
    ensures r.Some? ==> lo <= r.value < hi && r.value in ws && ws[r.value].source == key
    ensures r.None? ==> forall w :: lo <= w < hi && w in ws ==> ws[w].source != key
    decreases hi - lo
  {
    if lo >= hi then None
    else if lo in ws && ws[lo].source == key then Some(lo)
    else FindSource(ws, key, lo + 1, hi)
  }

  function SourceWindow(db: Db, key: MessageKey): Option<WindowId> {
    FindSource(db.windows, key, 0, db.nextWindow)
  }

  /** `COALESCE(MAX(send_index) + 1, 0)` over the attempts of one message. */
  function NextIndex(attempts: map<AttemptKey, Attempt>, source: MessageKey, bound: nat): (n: nat)
    ensures n <= bound
    ensures forall i: nat :: n <= i < bound ==> AttemptKey(source, i) !in attempts
    ensures n > 0 ==> AttemptKey(source, n - 1) in attempts
  {
    if bound == 0 || AttemptKey(source, bound - 1) in attempts then bound
    else NextIndex(attempts, source, bound - 1)
  }
}
