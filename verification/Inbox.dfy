/**
 What the transactions of the core store do to inbound messages, steering groups, Agent sessions and
 delivery records.
 */
module Inbox {
  import opened Basics
  import opened Tables
  import opened Ledger

  // ---------------------------------------------------------------- insertion

  datatype Arrival = Arrival(key: MessageKey, conv: Conversation, customer: bool, deferred: bool, payload: Payload)

  function ReceivedRow(inboxSeq: nat, a: Arrival, now: nat): Inbound {
    Inbound(inboxSeq, a.conv, a.customer, Received, a.deferred, None, "", Some(a.payload), now)
  }

  function InsertOne(db: Db, a: Arrival, now: nat): Db {
    if a.key in db.messages then db
    else db.(inbox := db.inbox + [a.key],
             messages := db.messages[a.key := ReceivedRow(|db.inbox| + 1, a, now)])
  }

  /** `insertInboundMessages`: a message that is already stored is left alone. */
  function InsertAll(db: Db, arrivals: seq<Arrival>, now: nat): Db {
    if arrivals == [] then db
    else InsertOne(InsertAll(db, arrivals[..|arrivals| - 1], now), arrivals[|arrivals| - 1], now)
  }

  /** Every stored message with the identity of an arrival belongs to the arrival's conversation. */
  predicate SameIdentity(db: Db, arrivals: seq<Arrival>) {
    && (forall i :: 0 <= i < |arrivals| && arrivals[i].key in db.messages ==>
          db.messages[arrivals[i].key].conv == arrivals[i].conv)
    && (forall i, j :: 0 <= i < j < |arrivals| && arrivals[i].key == arrivals[j].key ==>
          arrivals[i].conv == arrivals[j].conv)
  }

  function CursorOf(db: Db, account: string): string {
    if account in db.cursors then db.cursors[account] else ""
  }

  predicate WellFormed(account: string, a: Arrival) {
    a.conv.account == account && a.key.account == account && a.key.channel == a.conv.channel == WechatKf
  }

  /** `ingestSyncPage` for the WeChat KF channel. */
  function IngestSyncPage(
    db: Db, account: string, expectedCursor: string, nextCursor: string, arrivals: seq<Arrival>, now: nat): Txn<()>
  {
    if CursorOf(db, account) != expectedCursor then Rollback(CursorConflict)
    else if !(forall a :: a in arrivals ==> WellFormed(account, a)) then Rollback(InvalidInput)
    else if !SameIdentity(db, arrivals) then Rollback(DedupeInvariant)
    else Commit(InsertAll(db, arrivals, now).(cursors := db.cursors[account := nextCursor]), ())
  }

  /** `promoteDeferredConversation`, and `activateNextDeferredConversation` once it has chosen one. */
  function PromoteDeferred(db: Db, conv: Conversation, now: nat): Txn<()> {
    Commit(db.(messages := map k | k in db.messages :: var m := db.messages[k];
      if m.conv == conv && m.deferred && m.status == Received then m.(deferred := false, updatedAt := now) else m), ())
  }

  // ---------------------------------------------------------------- single message transitions

  function SetStatus(db: Db, key: MessageKey, status: InboundStatus, keepPayload: bool, now: nat): Db
    requires key in db.messages
  {
    var m := db.messages[key];
    db.(messages := db.messages[key := m.(
      status := status, payload := if keepPayload then m.payload else None, updatedAt := now)])
  }

  /** `claimInbound`. */
  function Claim(db: Db, key: MessageKey, now: nat): Txn<()> {
    if key !in db.messages then Rollback(UnknownMessage)
    else if db.messages[key].status in {Processing, Preparing} then
      Commit(db, ())
    else if db.messages[key].status !in {Received, Failed} then Rollback(WrongStatus)
    else Commit(SetStatus(db, key, Processing, true, now), ())
  }

  /** `markInboundPreparing`. */
  function MarkPreparing(db: Db, key: MessageKey, turnId: string, now: nat): Txn<()> {
    if key !in db.messages || db.messages[key].status !in {Processing, Preparing} then Rollback(WrongStatus)
    else Commit(db.(messages := db.messages[key := db.messages[key].(
      status := Preparing, turnId := turnId, updatedAt := now)]), ())
  }

  /** `markInboundIgnored`. */
  function MarkIgnored(db: Db, key: MessageKey, now: nat): Txn<()> {
    if key !in db.messages || db.messages[key].status != Received then Rollback(WrongStatus)
    else Commit(SetStatus(db, key, Ignored, false, now), ())
  }

  /** `markInboundCompleted`; its only caller has a `received` message. */
  function MarkCompleted(db: Db, key: MessageKey, now: nat): Txn<()>
    requires key in db.messages ==> db.messages[key].status == Received
  {
    if key !in db.messages then Rollback(WrongStatus)
    else Commit(SetStatus(db, key, Completed, false, now), ())
  }

  // ---------------------------------------------------------------- steering groups

  /** `beginInboundSteering`. */
  function BeginSteering(db: Db, key: MessageKey, primary: MessageKey, now: nat): Txn<()> {
    if key !in db.messages || primary !in db.messages then Rollback(UnknownMessage)
    else if db.messages[primary].status !in {Processing, Preparing} then Rollback(WrongStatus)
    else if db.messages[key].conv != db.messages[primary].conv then Rollback(PairMismatch)
    else if db.messages[key].status != Received then Rollback(WrongStatus)
    else Commit(db.(messages := db.messages[key := db.messages[key].(
      status := Steering, primary := Some(primary), turnId := db.messages[primary].turnId, updatedAt := now)]), ())
  }

  /** `confirmInboundSteered`. */
  function ConfirmSteered(db: Db, key: MessageKey, turnId: string, now: nat): Txn<()> {
    if key !in db.messages || db.messages[key].status != Steering then Rollback(WrongStatus)
    else Commit(db.(messages := db.messages[key := db.messages[key].(
      status := Steered, turnId := turnId, updatedAt := now)]), ())
  }

  function Requeued(m: Inbound, now: nat): Inbound {
    m.(status := Received, primary := None, turnId := "", updatedAt := now)
  }

  /** `requeueInboundSteering`. */
  function RequeueSteering(db: Db, key: MessageKey, primary: MessageKey, now: nat): Txn<()> {
    if key !in db.messages || db.messages[key].status != Steering || db.messages[key].primary != Some(primary) then
      Rollback(WrongStatus)
    else Commit(db.(messages := db.messages[key := Requeued(db.messages[key], now)]), ())
  }

  predicate InSteering(m: Inbound) { m.status == Steering || m.status == Steered }

  /** `failInbound`. */
  function FailInbound(db: Db, key: MessageKey, now: nat): Txn<bool> {
    if key !in db.messages || db.messages[key].status !in {Processing, Preparing} then Commit(db, false)
    else Commit(db.(messages := map k | k in db.messages :: var m := db.messages[k];
      if k == key then m.(status := Failed, updatedAt := now)
      else if m.primary == Some(key) && InSteering(m) && m.turnId == "" then Requeued(m, now)
      else m), true)
  }

  predicate InGroup(k: MessageKey, m: Inbound, key: MessageKey) {
    k == key || m.primary == Some(key)
  }

  function CloseMessageSessions(sessions: map<Token, Session>, key: MessageKey, now: nat): map<Token, Session> {
    CloseSessions(sessions, (set t | t in sessions && sessions[t].source == key), now)
  }

  /** `deferActiveInbound`; its value tells whether any row changed. */
  function DeferActive(db: Db, key: MessageKey, now: nat): Txn<bool> {
    if exists k :: k in db.attempts && k.source == key && db.attempts[k].origin != AgentApproval then Commit(db, false)
    else
      var chosen := set k | k in db.messages && InGroup(k, db.messages[k], key)
        && db.messages[k].status in {Failed, Processing, Preparing, Steering, Steered};
      Commit(db.(
        messages := map k | k in db.messages ::
          if k in chosen then Requeued(db.messages[k], now).(deferred := true) else db.messages[k],
        sessions := CloseMessageSessions(db.sessions, key, now)), chosen != {})
  }

  function MessageAttempts(attempts: map<AttemptKey, Attempt>, key: MessageKey): set<AttemptKey> {
    set k | k in attempts && k.source == key
  }

  /** `suppressInbound`: pending attempts fail but the window keeps their reservation. */
  function Suppress(db: Db, key: MessageKey, now: nat): Txn<()> {
    Commit(db.(
      messages := map k | k in db.messages :: var m := db.messages[k];
        if InGroup(k, m, key) && m.status !in {Completed, Ignored, Absorbed}
        then m.(status := Suppressed, updatedAt := now) else m,
      attempts := FailPending(db.attempts, MessageAttempts(db.attempts, key), SuppressedGroup, now)), ())
  }

  // ---------------------------------------------------------------- Agent sessions

  /** `getAgentSessionBoundary`: row number and window, if the boundary is still available. */
  function Boundary(db: Db, key: MessageKey, boundary: MessageKey, now: nat): Option<(nat, Option<WindowId>)>
    requires key in db.messages && boundary in db.messages
  {
    var b := db.messages[boundary];
    if db.messages[key].conv.channel != WeixinIlink then Some((b.inboxSeq, None))
    else
      var w := SourceWindow(db, boundary);
      if w.Some? && db.windows[w.value].conv == db.messages[key].conv && db.windows[w.value].sourceSeq == b.inboxSeq
        && db.windows[w.value].state == Open && db.windows[w.value].expiresAt > now
      then Some((b.inboxSeq, w)) else None
  }

  function Min(a: nat, b: nat): nat { if a < b then a else b }

  function Max(a: nat, b: nat): nat { if a < b then b else a }

  /** `createAgentSession`; `token` is the fresh random token. */
  function CreateSession(
    db: Db, token: Token, key: MessageKey, boundary: MessageKey, ttl: nat, now: nat): Txn<Token>
    requires token !in db.sessions
  {
    if key !in db.messages || db.messages[key].status !in {Processing, Preparing} then Rollback(InvalidAgentSession)
    else if boundary !in db.messages || db.messages[boundary].conv != db.messages[key].conv then
      Rollback(InvalidAgentSession)
    else
      var b := Boundary(db, key, boundary, now);
      if b.None? then Rollback(BoundaryUnavailable)
      else
        var expires := now + Max(1000, Min(ttl, 60 * 60 * 1000));
        var s := Session(key, db.messages[key].conv, b.value.1, b.value.0, expires, 0);
        Commit(db.(sessions := Replacing(db.sessions, token, s, now)), token)
  }

  /** A session takes the place of those of its conversation that have not expired. */
  function Replacing(sessions: map<Token, Session>, token: Token, s: Session, now: nat): map<Token, Session> {
    var others := set t | t in sessions && sessions[t].conv == s.conv && sessions[t].expiresAt > now;
    CloseSessions(sessions, others, now)[token := s]
  }

  /** `closeAgentSession`. */
  function CloseSession(db: Db, token: Token, now: nat): Txn<bool> {
    Commit(db.(sessions := CloseSessions(db.sessions, {token}, now)),
           token in db.sessions && db.sessions[token].closedAt == 0)
  }

  /** `closeAgentSessions`. */
  function CloseSessionsOf(db: Db, key: MessageKey, now: nat): Txn<()> {
    Commit(db.(sessions := CloseMessageSessions(db.sessions, key, now)), ())
  }

  /** `#validatedAgentSession` for the WeChat KF channel. */
  predicate SessionUsable(db: Db, token: Token, now: nat) {
    && token in db.sessions
    && Live(now, db.sessions[token])
    && db.sessions[token].source in db.messages
    && db.messages[db.sessions[token].source].conv == db.sessions[token].conv
    && db.messages[db.sessions[token].source].status in {Processing, Preparing}
    && !(exists k :: k in db.messages && db.messages[k].conv == db.sessions[token].conv
           && db.messages[k].inboxSeq > db.sessions[token].boundarySeq && db.messages[k].customer
           && db.messages[k].status != Ignored
           && !(db.messages[k].conv.channel == WeixinIlink && db.messages[k].status == Absorbed))
  }

  function KfAttempt(conv: Conversation, origin: Origin, status: SendStatus, now: nat): Attempt {
    Attempt(conv, None, origin, status, "", NoReason, 0, None, false, now)
  }

  /** `reserveAgentSend`: the row is inserted and claimed in one transaction. */
  function ReserveAgentSend(db: Db, token: Token, now: nat): Txn<AttemptKey> {
    if !SessionUsable(db, token, now) || db.sessions[token].conv.channel != WechatKf then Rollback(InvalidAgentSession)
    else
      var s := db.sessions[token];
      var index := NextIndex(db.attempts, s.source, MAX_ATTEMPTS);
      if index >= 5 then Rollback(BudgetExceeded)
      else Commit(db.(attempts := db.attempts[AttemptKey(s.source, index) := KfAttempt(s.conv, McpTool, Sending, now)]),
                  AttemptKey(s.source, index))
  }

  /** `reserveQueueNotice`, called for WeChat KF messages only; a message has one notice at most. */
  function ReserveQueueNotice(db: Db, key: MessageKey, now: nat): Txn<()> {
    var index := NextIndex(db.attempts, key, MAX_ATTEMPTS);
    if key !in db.messages || db.messages[key].status != Received || db.messages[key].deferred
      || db.messages[key].conv.channel != WechatKf then Rollback(WrongStatus)
    else if exists k :: k in db.attempts && k.source == key && db.attempts[k].origin == QueueNotice then Commit(db, ())
    else if index >= 5 then Rollback(InvalidInput)
    else Commit(db.(attempts := db.attempts[AttemptKey(key, index) :=
      KfAttempt(db.messages[key].conv, QueueNotice, Pending, now)]), ())
  }

  /** `beginNextSend('wechat_kf')` once it has chosen its candidate. */
  function BeginSend(db: Db, key: AttemptKey, now: nat): Txn<AttemptKey> {
    if key !in db.attempts || db.attempts[key].status != Pending || db.attempts[key].conv.channel != WechatKf
      || SendingIn(db.attempts, db.attempts[key].conv) then Rollback(UnknownAttempt)
    else Commit(db.(attempts := db.attempts[key := db.attempts[key].(status := Sending, updatedAt := now)]), key)
  }

  // ---------------------------------------------------------------- finalization

  const ACTIVE_STATUSES: set<InboundStatus> :=
    {Received, Processing, Preparing, Ready, Steering, Steered, Failed}

  /** A later message of the customer still waits for an answer. */
  predicate LaterCustomer(messages: map<MessageKey, Inbound>, key: MessageKey)
    requires key in messages
  {
    exists k :: k in messages && messages[k].conv == messages[key].conv && messages[k].customer
      && messages[k].inboxSeq > messages[key].inboxSeq && messages[k].status in ACTIVE_STATUSES
  }

  /** `#settleSourceMessage`: complete the source once nothing of it is outstanding. */
  function Settle(db: Db, key: MessageKey, now: nat): Db {
    if exists k :: k in db.attempts && k.source == key && db.attempts[k].status in {Pending, Sending} then db
    else if exists t :: t in db.sessions && db.sessions[t].source == key && Live(now, db.sessions[t]) then db
    else if key !in db.messages then db
    else if LaterCustomer(db.messages, key) then db
    else if db.messages[key].status in {Ready, Processing, Preparing} then SetStatus(db, key, Completed, false, now)
    else db
  }

  /** Attempts of a message made through the tools, and those that count against a budget. */
  function ToolAttempts(attempts: map<AttemptKey, Attempt>, key: MessageKey): set<AttemptKey> {
    set k | k in attempts && k.source == key && attempts[k].origin == McpTool
  }

  predicate Charged(a: Attempt) {
    a.reason !in {AbandonedBeforeTransmit, CancelledBeforeTransmit, ReplyWindowExpired, ReplyQuotaExhausted}
  }

  function ChargedIn(attempts: map<AttemptKey, Attempt>, key: MessageKey, window: Option<WindowId>): set<AttemptKey> {
    set k | k in ToolAttempts(attempts, key) && Charged(attempts[k]) && attempts[k].window == window
  }

  predicate WithinBudget(db: Db, key: MessageKey) {
    forall k :: k in ToolAttempts(db.attempts, key) && Charged(db.attempts[k]) ==>
      |ChargedIn(db.attempts, key, db.attempts[k].window)| <= if db.attempts[k].window.Some? then MAX_SENDS else 5
  }

  predicate SteeredBy(db: Db, k: MessageKey, key: MessageKey) {
    k in db.messages && db.messages[k].status == Steered && db.messages[k].primary == Some(key)
  }

  /** `finalizeAgentExecution`. */
  function Finalize(
    db: Db, key: MessageKey, steered: set<MessageKey>, reported: seq<AttemptKey>, now: nat): Txn<()>
  {
    if reported == [] || |reported| > MAX_ATTEMPTS || key !in db.messages
      || !(forall i, j :: 0 <= i < j < |reported| ==> reported[i] != reported[j]) then Rollback(InvalidInput)
    else if !WithinBudget(db, key) then Rollback(BudgetExceeded)
    else if (set k | k in reported) != ToolAttempts(db.attempts, key)
      || !(forall k :: k in ToolAttempts(db.attempts, key) ==>
             db.attempts[k].status in {Accepted, FailedSend, Uncertain}) then Rollback(InvariantConflict)
    else if db.messages[key].status !in {Processing, Preparing, Ready, Completed} then Rollback(WrongStatus)
    else if !(forall k :: k in steered ==> SteeredBy(db, k, key)) then Rollback(InvariantConflict)
    else Commit(db.(
      messages := map k | k in db.messages :: var m := db.messages[k];
        if k == key then m.(status := Completed, payload := None, updatedAt := now)
        else if k in steered then m.(status := Absorbed, payload := None, updatedAt := now)
        else m,
      sessions := CloseMessageSessions(db.sessions, key, now)), ())
  }

  // ---------------------------------------------------------------- delivery outcomes

  /** Another attempt of the channel has the provider message id. */
  predicate IdTaken(attempts: map<AttemptKey, Attempt>, key: AttemptKey, providerId: string)
    requires key in attempts
  {
    exists k :: k in attempts && k != key && attempts[k].conv.channel == attempts[key].conv.channel
      && attempts[k].providerMessageId == providerId
  }

  /** `#finishSending`. */
  function FinishSending(db: Db, key: AttemptKey, status: SendStatus, providerId: string, reason: Reason, now: nat)
    : Txn<()> {
    if key !in db.attempts then Rollback(UnknownAttempt)
    else if db.attempts[key].status == status then Commit(db, ())
    else if db.attempts[key].status != Sending then Rollback(WrongStatus)
    else if providerId != "" && IdTaken(db.attempts, key, providerId) then Rollback(UniqueViolation)
    else
      Commit(Settle(db.(attempts := db.attempts[key := db.attempts[key].(
        status := status, providerMessageId := providerId, reason := reason, updatedAt := now)]), key.source, now), ())
  }

  /** `#applyDeliveryFailure`. */
  function ApplyFailure(db: Db, key: AttemptKey, failType: int, now: nat): Db
    requires key in db.attempts
  {
    var id := db.attempts[key].providerMessageId;
    db.(
      attempts := db.attempts[key := db.attempts[key].(
        status := FailedSend, failType := failType, reason := MsgSendFail, updatedAt := now)],
      failures := if id in db.failures
        then db.failures[id := db.failures[id].(matched := Some(key), matchedAt := now)] else db.failures)
  }

  /** `completeSend`. */
  function CompleteSend(db: Db, key: AttemptKey, providerId: string, now: nat): Txn<()> {
    if providerId == "" then Rollback(InvalidInput)
    else
      var accepted := FinishSending(db, key, Accepted, providerId, NoReason, now);
      if accepted.Rollback? || key !in accepted.db.attempts || accepted.db.attempts[key].conv.channel != WechatKf
        || providerId !in accepted.db.failures then accepted
      else Commit(ApplyFailure(accepted.db, key, accepted.db.failures[providerId].failType, now), ())
  }

  /** `markSendUncertain`. */
  function MarkUncertain(db: Db, key: AttemptKey, code: string, now: nat): Txn<()> {
    FinishSending(db, key, Uncertain, "", ProviderError(code), now)
  }

  /** `failSend`. */
  function FailSend(db: Db, key: AttemptKey, code: string, now: nat): Txn<()> {
    if key !in db.attempts then Rollback(UnknownAttempt)
    else if db.attempts[key].status == FailedSend then Commit(db, ())
    else if db.attempts[key].status != Sending then Rollback(WrongStatus)
    else Commit(Settle(db.(attempts := db.attempts[key := db.attempts[key].(
      status := FailedSend, reason := ProviderError(code), updatedAt := now)]), key.source, now), ())
  }

  /** The accepted WeChat KF attempt with a provider message id. */
  predicate AcceptedAs(attempts: map<AttemptKey, Attempt>, k: AttemptKey, providerId: string) {
    k in attempts && attempts[k].conv.channel == WechatKf && attempts[k].providerMessageId == providerId
      && attempts[k].status == Accepted
  }

  /** The row that the query of `markSendMsgFailed` returns; provider ids are unique per channel. */
  ghost function AcceptedKey(attempts: map<AttemptKey, Attempt>, providerId: string): AttemptKey
    requires exists k :: AcceptedAs(attempts, k, providerId)
  {
    var k :| AcceptedAs(attempts, k, providerId); k
  }

  function Observe(db: Db, providerId: string, failType: int, now: nat): Db {
    db.(failures := db.failures[providerId := if providerId in db.failures
      then db.failures[providerId].(failType := failType, observedAt := now) else Failure(failType, now, None, 0)])
  }

  /** `markSendMsgFailed`. */
  ghost function MarkMsgFailed(db: Db, providerId: string, failType: int, now: nat): Txn<bool> {
    if providerId == "" then Commit(db, false)
    else
      var observed := Observe(db, providerId, failType, now);
      if exists k :: AcceptedAs(db.attempts, k, providerId) then
        Commit(ApplyFailure(observed, AcceptedKey(db.attempts, providerId), failType, now), true)
      else Commit(observed, false)
  }

  // ---------------------------------------------------------------- recovery and retention

  function SettleAll(db: Db, keys: seq<MessageKey>, now: nat): Db
    decreases |keys|
  {
    if keys == [] then db else SettleAll(Settle(db, keys[0], now), keys[1..], now)
  }

  /** The first two statements of `recoverStartup`: nothing is active and nothing is on the wire. */
  function Interrupted(db: Db, now: nat): Db {
    db.(
      sessions := CloseSessions(db.sessions, db.sessions.Keys, now),
      attempts := map k | k in db.attempts :: if db.attempts[k].status == Sending
        then db.attempts[k].(status := Uncertain, reason := StartupRecovery, updatedAt := now) else db.attempts[k])
  }

  /** Its last statement: steering that never reached the Agent starts over. */
  function RequeueUnsent(db: Db, now: nat): Db {
    db.(messages := map k | k in db.messages :: var m := db.messages[k];
      if InSteering(m) && m.turnId == "" then Requeued(m, now) else m)
  }

  function StartupSources(db: Db): set<MessageKey> {
    set k | k in db.attempts && db.attempts[k].status == Uncertain && db.attempts[k].reason == StartupRecovery ::
      k.source
  }

  /** `recoverStartup`; `sources` lists the sources of the uncertain attempts in the order of the query. */
  function RecoverStartup(db: Db, sources: seq<MessageKey>, now: nat): Txn<()>
    requires (set k | k in sources) == StartupSources(Interrupted(db, now))
  {
    Commit(RequeueUnsent(SettleAll(Interrupted(db, now), sources, now), now), ())
  }

  const PAYLOAD_AGE: nat := 7 * 24 * 60 * 60 * 1000
  const AUDIT_AGE: nat := 30 * 24 * 60 * 60 * 1000
  const SESSION_AGE: nat := 60 * 60 * 1000

  predicate Expired(updatedAt: nat, age: nat, now: nat) { updatedAt + age < now }

  predicate AuditExpired(a: Attempt, now: nat) {
    Expired(a.updatedAt, AUDIT_AGE, now) && a.status in {Accepted, FailedSend}
  }

  function CleanMessages(messages: map<MessageKey, Inbound>, now: nat): map<MessageKey, Inbound> {
    map k | k in messages :: var m := messages[k];
      if Expired(m.updatedAt, PAYLOAD_AGE, now) && m.status in {Completed, Absorbed, Failed, Ignored, Suppressed}
      then m.(payload := None) else m
  }

  function CleanAttempts(attempts: map<AttemptKey, Attempt>, now: nat): map<AttemptKey, Attempt> {
    map k | k in attempts && !AuditExpired(attempts[k], now) :: var a := attempts[k];
      if Expired(a.updatedAt, PAYLOAD_AGE, now) && a.status in {Accepted, FailedSend}
      then a.(windowIndex := None) else a
  }

  function CleanSessions(sessions: map<Token, Session>, now: nat): map<Token, Session> {
    map t | t in sessions && !(sessions[t].expiresAt < now
      || (sessions[t].closedAt > 0 && Expired(sessions[t].closedAt, SESSION_AGE, now))) :: sessions[t]
  }

  /** An attempt of the window has not left the machine for good. */
  predicate Outstanding(attempts: map<AttemptKey, Attempt>, id: WindowId) {
    exists k :: k in attempts && attempts[k].window == Some(id) && attempts[k].status in {Pending, Sending}
  }

  /** An expired open window that nothing needs any more. */
  predicate Closable(attempts: map<AttemptKey, Attempt>, messages: map<MessageKey, Inbound>, id: WindowId, w: Window,
                     now: nat) {
    && w.state == Open && w.expiresAt <= now
    && !Outstanding(attempts, id)
    && !(w.source in messages && messages[w.source].status in ACTIVE_STATUSES)
  }

  function CloseExpired(windows: map<WindowId, Window>, attempts: map<AttemptKey, Attempt>,
                        messages: map<MessageKey, Inbound>, now: nat): map<WindowId, Window> {
    map w | w in windows :: if Closable(attempts, messages, w, windows[w], now)
      then windows[w].(state := Closed, reserved := 0, updatedAt := now) else windows[w]
  }

  predicate Referenced(attempts: map<AttemptKey, Attempt>, id: WindowId) {
    exists k :: k in attempts && attempts[k].window == Some(id)
  }

  function KeptWindows(db: Db, now: nat): map<WindowId, Window> {
    map w | w in db.windows && (db.windows[w].state == Open || !Expired(db.windows[w].updatedAt, AUDIT_AGE, now)
      || Referenced(db.attempts, w)) :: db.windows[w]
  }

  /** `cleanup`, up to the deletion of windows. */
  function Retention(db: Db, now: nat): Db {
    var rows := db.(
      messages := CleanMessages(db.messages, now),
      attempts := CleanAttempts(db.attempts, now),
      sessions := CleanSessions(db.sessions, now),
      failures := map f | f in db.failures && !Expired(db.failures[f].observedAt, AUDIT_AGE, now) :: db.failures[f]);
    rows.(
      secrets := (set w | w in db.secrets && w in db.windows && db.windows[w].expiresAt > now),
      windows := CloseExpired(rows.windows, rows.attempts, rows.messages, now))
  }

  /** A session still refers to one of the windows. */
  predicate Dangling(sessions: map<Token, Session>, ws: set<WindowId>) {
    exists t :: t in sessions && sessions[t].window.Some? && sessions[t].window.value in ws
  }

  /** `cleanup`. Deleting a window that a session still refers to aborts the transaction. */
  function Cleanup(db: Db, now: nat): Txn<()> {
    var retained := Retention(db, now);
    var kept := KeptWindows(retained, now);
    if Dangling(retained.sessions, retained.windows.Keys - kept.Keys) then Rollback(InvariantConflict)
    else Commit(retained.(windows := kept, secrets := (set w | w in retained.secrets && w in kept)), ())
  }
}
