/**
 What the transactions of the iLink store do to the tables: accounts and cursors, reply windows, and
 the send attempts that hold quota of a window.
 */
module Ledger {
  import opened Basics
  import opened Tables

  // ---------------------------------------------------------------- bulk row updates

  /** Fail the pending attempts that `chosen` selects. */
  function FailPending(attempts: map<AttemptKey, Attempt>, chosen: set<AttemptKey>, reason: Reason, now: nat)
    : map<AttemptKey, Attempt>
  {
    map k | k in attempts :: if k in chosen && attempts[k].status == Pending
      then attempts[k].(status := FailedSend, reason := reason, updatedAt := now) else attempts[k]
  }

  function WindowAttempts(attempts: map<AttemptKey, Attempt>, ws: set<WindowId>): set<AttemptKey> {
    set k | k in attempts && attempts[k].window.Some? && attempts[k].window.value in ws
  }

  function CloseSessions(sessions: map<Token, Session>, chosen: set<Token>, now: nat): map<Token, Session> {
    map t | t in sessions :: if t in chosen && sessions[t].closedAt == 0
      then sessions[t].(closedAt := now) else sessions[t]
  }

  function WindowSessions(sessions: map<Token, Session>, ws: set<WindowId>): set<Token> {
    set t | t in sessions && sessions[t].window.Some? && sessions[t].window.value in ws
  }

  /** `#retireWindow` for every window of a set. */
  function RetireWindows(db: Db, ws: set<WindowId>, state: WindowState, reason: Reason, now: nat): Db {
    db.(
      attempts := FailPending(db.attempts, WindowAttempts(db.attempts, ws), reason, now),
      sessions := CloseSessions(db.sessions, WindowSessions(db.sessions, ws), now),
      windows := map w | w in db.windows :: if w in ws && db.windows[w].state == Open
        then db.windows[w].(state := state, reserved := 0, updatedAt := now) else db.windows[w],
      secrets := db.secrets - ws)
  }

  function OpenWindowsOf(windows: map<WindowId, Window>, account: string): set<WindowId> {
    set w | w in windows && windows[w].conv.account == account && windows[w].state == Open
  }

  // ---------------------------------------------------------------- accounts and cursors

  function RegisterAccount(db: Db, account: string, owner: string): Txn<()> {
    if account in db.accounts then Rollback(AccountExists)
    else if exists a :: a in db.accounts && db.accounts[a].owner == owner && db.accounts[a].status in {Active, Paused}
      then Rollback(OwnerConflict)
    else Commit(db.(accounts := db.accounts[account := Account(owner, 1, Active, "")]), ())
  }

  function RotateAccount(db: Db, account: string, owner: string, expectedGeneration: nat, now: nat): Txn<()> {
    if account !in db.accounts then Rollback(AccountNotFound)
    else
      var row := db.accounts[account];
      if row.generation != expectedGeneration then Rollback(GenerationConflict)
      else if row.owner != owner then Rollback(PairMismatch)
      else
        var cancelled := RetireWindows(db, OpenWindowsOf(db.windows, account), Cancelled, GenerationChanged, now);
        Commit(cancelled.(accounts := db.accounts[account :=
          row.(generation := row.generation + 1, status := Active)]), ())
  }

  predicate OfAccount(conv: Conversation, account: string) {
    conv.channel == WeixinIlink && conv.account == account
  }

  function DeleteAccount(db: Db, account: string, now: nat): Txn<()> {
    if account !in db.accounts then Rollback(AccountNotFound)
    else
      var gone := RetireWindows(db, OpenWindowsOf(db.windows, account), Cancelled, AccountDeleted, now);
      Commit(WithoutAccount(gone, account), ())
  }

  /** Without the account and every row of it. */
  function WithoutAccount(gone: Db, account: string): Db {
    gone.(
      failures := map f | f in gone.failures && !(gone.failures[f].matched.Some?
        && gone.failures[f].matched.value in gone.attempts
        && OfAccount(gone.attempts[gone.failures[f].matched.value].conv, account)) :: gone.failures[f],
      sessions := map t | t in gone.sessions && !OfAccount(gone.sessions[t].conv, account) :: gone.sessions[t],
      attempts := map k | k in gone.attempts && !OfAccount(gone.attempts[k].conv, account) :: gone.attempts[k],
      windows := map w | w in gone.windows && gone.windows[w].conv.account != account :: gone.windows[w],
      images := map k | k in gone.images && !(k in gone.messages && OfAccount(gone.messages[k].conv, account))
        :: gone.images[k],
      messages := map k | k in gone.messages && !OfAccount(gone.messages[k].conv, account) :: gone.messages[k],
      accounts := map a | a in gone.accounts && a != account :: gone.accounts[a])
  }

  /** The error of a failed compare-and-set on an account row. */
  function CursorFailure(db: Db, account: string, expectedGeneration: nat): Error {
    if account !in db.accounts then AccountNotFound
    else if db.accounts[account].status != Active then AccountNotActive
    else if db.accounts[account].generation != expectedGeneration then GenerationConflict
    else CursorConflict
  }

  predicate CursorMatches(db: Db, account: string, expectedGeneration: nat, expectedCursor: string) {
    && account in db.accounts
    && db.accounts[account].generation == expectedGeneration
    && db.accounts[account].status == Active
    && db.accounts[account].cursor == expectedCursor
  }

  function CompareAndSetCursor(
    db: Db, account: string, expectedGeneration: nat, expectedCursor: string, nextCursor: string): Txn<string>
  {
    if CursorMatches(db, account, expectedGeneration, expectedCursor) then
      Commit(db.(accounts := db.accounts[account := db.accounts[account].(cursor := nextCursor)]), nextCursor)
    else Rollback(CursorFailure(db, account, expectedGeneration))
  }

  // ---------------------------------------------------------------- sessions

  /** The joined row that `#sessionWindow` selects exists. */
  predicate HasSessionRow(db: Db, token: Token) {
    && token in db.sessions
    && db.sessions[token].conv.channel == WeixinIlink
    && db.sessions[token].window.Some?
    && db.sessions[token].window.value in db.windows
    && db.windows[db.sessions[token].window.value].conv.account in db.accounts
    && db.sessions[token].source in db.messages
  }

  /** The session, its source message and its window belong together and are active. */
  predicate SessionActive(db: Db, token: Token, now: nat)
    requires HasSessionRow(db, token)
  {
    var s := db.sessions[token];
    var w := db.windows[s.window.value];
    && Live(now, s)
    && db.messages[s.source].status in {Processing, Preparing}
    && s.boundarySeq == w.sourceSeq
    && s.conv == w.conv
  }

  /** `#validateSessionWindow`: the error it throws, if any. */
  function SessionError(db: Db, token: Token, now: nat): Option<Error> {
    if !HasSessionRow(db, token) || !SessionActive(db, token, now) then Some(InvalidAgentSession)
    else
      var w := db.windows[db.sessions[token].window.value];
      var account := db.accounts[w.conv.account];
      if account.status != Active || account.generation != w.generation then Some(GenerationConflict)
      else if now >= w.expiresAt then Some(ReplyWindowExpiredError)
      else if w.state != Open then Some(ReplyWindowInactive)
      else None
  }

  // ---------------------------------------------------------------- send attempts

  datatype Prepared = Reserved(key: AttemptKey) | Rejected(key: AttemptKey, error: Error)

  function NewAttempt(w: Window, id: WindowId, origin: Origin, status: SendStatus, reason: Reason, now: nat): Attempt {
    Attempt(w.conv, Some(id), origin, status, "", reason, 0, Some(w.next), status != FailedSend, now)
  }

  /** Why a reply is refused: its window has expired or its quota is used up. */
  function Rejection(db: Db, token: Token, now: nat): Option<Error>
    requires HasSessionRow(db, token)
  {
    var w := db.windows[db.sessions[token].window.value];
    if SessionError(db, token, now) == Some(ReplyWindowExpiredError) then Some(ReplyWindowExpiredError)
    else if w.reserved + w.transmitted >= MAX_SENDS then Some(ReplyQuotaExhaustedError)
    else None
  }

  /** `#prepareReplyAttempt`. */
  function PrepareReply(db: Db, token: Token, persistRejection: bool, now: nat): Txn<Prepared> {
    var failure := SessionError(db, token, now);
    if failure.Some? && !(persistRejection && failure.value == ReplyWindowExpiredError) then Rollback(failure.value)
    else
      var s := db.sessions[token];
      var id := s.window.value;
      var w := db.windows[id];
      var rejection := Rejection(db, token, now);
      var index := NextIndex(db.attempts, s.source, MAX_ATTEMPTS);
      if rejection.Some? && !persistRejection then Rollback(rejection.value)
      else if index >= MAX_ATTEMPTS then Rollback(ReplyQuotaExhaustedError)
      else
        var key := AttemptKey(s.source, index);
        if rejection.Some? then
          var reason := if rejection.value == ReplyWindowExpiredError then ReplyWindowExpired else ReplyQuotaExhausted;
          Commit(db.(attempts := db.attempts[key := NewAttempt(w, id, McpTool, FailedSend, reason, now)]),
                 Rejected(key, rejection.value))
        else if w.state != Open || w.reserved + w.transmitted >= MAX_SENDS then Rollback(CounterConflict)
        else
          Commit(db.(
            windows := db.windows[id := w.(next := w.next + 1, reserved := w.reserved + 1, updatedAt := now)],
            attempts := db.attempts[key := NewAttempt(w, id, McpTool, Pending, NoReason, now)]), Reserved(key))
  }

  /** Another attempt of the conversation is on the wire. */
  predicate SendingIn(attempts: map<AttemptKey, Attempt>, conv: Conversation) {
    exists k :: k in attempts && attempts[k].status == Sending && attempts[k].conv == conv
  }

  /** `#pendingReplyAttempt`: the error it throws, if any. */
  function PendingError(db: Db, token: Token, key: AttemptKey, now: nat): Option<Error> {
    var failure := SessionError(db, token, now);
    if failure.Some? then failure
    else
      var id := db.sessions[token].window.value;
      if key in db.attempts && db.attempts[key].status == Pending
        && db.attempts[key].window == Some(id) && db.attempts[key].conv == db.windows[id].conv
      then None else Some(AttemptNotReservable)
  }

  /** `startReplyAttempt`. */
  function StartReply(db: Db, token: Token, key: AttemptKey, now: nat): Txn<AttemptKey> {
    var failure := PendingError(db, token, key, now);
    if failure.Some? then Rollback(failure.value)
    else
      var id := db.sessions[token].window.value;
      var w := db.windows[id];
      if SendingIn(db.attempts, w.conv) then Rollback(SendInProgress)
      else if w.reserved == 0 || w.reserved + w.transmitted > MAX_SENDS then Rollback(CounterConflict)
      else
        Commit(db.(
          attempts := db.attempts[key := db.attempts[key].(status := Sending, updatedAt := now)],
          windows := db.windows[id := w.(reserved := w.reserved - 1, transmitted := w.transmitted + 1,
            updatedAt := now)],
          sent := db.sent + multiset{id}), key)
  }

  /** `releasePendingAttempt`. */
  function ReleasePending(db: Db, key: AttemptKey, expired: bool, now: nat): Txn<bool> {
    if key !in db.attempts || db.attempts[key].conv.channel != WeixinIlink || db.attempts[key].status != Pending then
      Commit(db, false)
    else
      var a := db.attempts[key];
      if a.window.None? || a.window.value !in db.windows || db.windows[a.window.value].reserved == 0 then
        Rollback(CounterConflict)
      else
        var w := db.windows[a.window.value];
        Commit(db.(
          windows := db.windows[a.window.value := w.(reserved := w.reserved - 1, updatedAt := now)],
          attempts := db.attempts[key := a.(status := FailedSend, updatedAt := now,
            reason := if expired then ReplyWindowExpired else CancelledBeforeTransmit)]), true)
  }

  /** The pending iLink attempts, and those of one window. */
  function PendingIlink(attempts: map<AttemptKey, Attempt>): set<AttemptKey> {
    set k | k in attempts && attempts[k].conv.channel == WeixinIlink && attempts[k].status == Pending
  }

  function PendingOf(attempts: map<AttemptKey, Attempt>, w: WindowId): set<AttemptKey> {
    set k | k in attempts && attempts[k].window == Some(w) && attempts[k].status == Pending
  }

  predicate Recoverable(db: Db) {
    forall k :: k in PendingIlink(db.attempts) ==>
      && db.attempts[k].window.Some?
      && db.attempts[k].window.value in db.windows
      && |PendingOf(db.attempts, db.attempts[k].window.value)| <= db.windows[db.attempts[k].window.value].reserved
  }

  /** `recoverPendingAttempts`. */
  function RecoverPending(db: Db, now: nat): Txn<nat> {
    if !Recoverable(db) then Rollback(CounterConflict)
    else
      Commit(db.(
        attempts := FailPending(db.attempts, PendingIlink(db.attempts), AbandonedBeforeTransmit, now),
        windows := map w | w in db.windows :: var n := |PendingOf(db.attempts, w)|;
          if 0 < n <= db.windows[w].reserved
          then db.windows[w].(reserved := db.windows[w].reserved - n, updatedAt := now)
          else db.windows[w]), |PendingIlink(db.attempts)|)
  }

  /** `reserveStartedSystemAttempt`. */
  function StartSystem(db: Db, key: MessageKey, origin: Origin, now: nat): Txn<AttemptKey> {
    var found := SourceWindow(db, key);
    if found.None? then Rollback(ReplyWindowNotFound)
    else
      var id := found.value;
      var w := db.windows[id];
      if w.conv.account !in db.accounts || db.accounts[w.conv.account].status != Active
        || db.accounts[w.conv.account].generation != w.generation || w.state != Open then Rollback(ReplyWindowInactive)
      else if now >= w.expiresAt then Rollback(ReplyWindowExpiredError)
      else if w.reserved + w.transmitted >= MAX_SENDS then Rollback(ReplyQuotaExhaustedError)
      else if SendingIn(db.attempts, w.conv) then Rollback(SendInProgress)
      else
        var index := NextIndex(db.attempts, key, MAX_ATTEMPTS);
        if index >= MAX_ATTEMPTS then Rollback(AttemptNotReservable)
        else
          Commit(db.(
            windows := db.windows[id := w.(next := w.next + 1, transmitted := w.transmitted + 1, updatedAt := now)],
            attempts := db.attempts[AttemptKey(key, index) := NewAttempt(w, id, origin, Sending, NoReason, now)],
            sent := db.sent + multiset{id}), AttemptKey(key, index))
  }
}
