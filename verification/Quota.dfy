/** When the ledger grants quota, and everything that a grant, a transmission or a release changes. */
module Quota {
  import opened Basics
  import opened Tables
  import opened Ledger
  import opened Inbox
  import opened Invariants
  import opened LedgerProofs
  import opened PageProofs

  // ---------------------------------------------------------------- the words

  /** The session answers through the window: it lives, its message is worked on, and the account is as it was. */
  ghost predicate Bound(db: Db, token: Token, w: WindowId, now: nat) {
    && token in db.sessions && w in db.windows
    && var s := db.sessions[token];
       && s.closedAt == 0 && now < s.expiresAt && s.window == Some(w)
       && s.source in db.messages && db.messages[s.source].status in {Processing, Preparing}
       && db.windows[w].conv.account in db.accounts
       && db.accounts[db.windows[w].conv.account].status == Active
       && db.accounts[db.windows[w].conv.account].generation == db.windows[w].generation
  }

  /** The window takes replies. */
  predicate Usable(w: Window, now: nat) { w.state == Open && now < w.expiresAt }

  /** A key of the source that is not in use and lies behind all that are. */
  ghost predicate NextKey(attempts: map<AttemptKey, Attempt>, source: MessageKey, key: AttemptKey) {
    && key.source == source && key !in attempts && key.index < 1000
    && (key.index > 0 ==> AttemptKey(source, key.index - 1) in attempts)
    && forall i: nat :: i < 1000 && AttemptKey(source, i) in attempts ==> i < key.index
  }

  /** Two databases differ at most in one attempt, one window and the history of sends. */
  ghost predicate OnlyAt(db: Db, after: Db, key: AttemptKey, w: WindowId) {
    && after == db.(attempts := after.attempts, windows := after.windows, sent := after.sent)
    && key in after.attempts && after.attempts == db.attempts[key := after.attempts[key]]
    && w in after.windows && w in db.windows && after.windows == db.windows[w := after.windows[w]]
    && after.windows[w] == db.windows[w].(next := after.windows[w].next, reserved := after.windows[w].reserved,
         transmitted := after.windows[w].transmitted, updatedAt := after.windows[w].updatedAt)
  }

  /** The window's counters have changed by these amounts. */
  ghost predicate Counts(before: Window, after: Window, issued: int, reserved: int, transmitted: int) {
    && after.next == before.next + issued
    && after.reserved == before.reserved + reserved
    && after.transmitted == before.transmitted + transmitted
  }

  /** A row that was just inserted for the window. */
  ghost predicate Fresh(a: Attempt, w: WindowId, window: Window, origin: Origin) {
    && a.window == Some(w) && a.conv == window.conv && a.origin == origin && a.providerMessageId == ""
    && a.windowIndex == Some(window.next)
  }

  // ---------------------------------------------------------------- sessions

  lemma BoundWorks(db: Db, token: Token, w: WindowId, now: nat)
    requires Inv(db) && Bound(db, token, w, now)
    ensures HasSessionRow(db, token) && SessionActive(db, token, now)
    ensures db.sessions[token].window == Some(w)
    ensures SessionError(db, token, now) ==
      if now >= db.windows[w].expiresAt then Some(ReplyWindowExpiredError)
      else if db.windows[w].state != Open then Some(ReplyWindowInactive) else None
  {
    SessionFacts(db, token);
    hide Inv;
  }

  /** Any other session is refused. */
  lemma UnboundFails(db: Db, token: Token, now: nat)
    requires Inv(db) && forall w :: !Bound(db, token, w, now)
    ensures SessionError(db, token, now) in {Some(InvalidAgentSession), Some(GenerationConflict)}
  {
    hide Inv;
    if token in db.sessions && db.sessions[token].window.Some? {
      assert !Bound(db, token, db.sessions[token].window.value, now);
    }
  }

  lemma NextIndexIsNext(attempts: map<AttemptKey, Attempt>, source: MessageKey)
    requires AttemptKey(source, 999) !in attempts
    ensures NextIndex(attempts, source, 1000) < 1000
    ensures NextKey(attempts, source, AttemptKey(source, NextIndex(attempts, source, 1000)))
  {
    var n := NextIndex(attempts, source, 1000);
    forall i: nat | i < 1000 && AttemptKey(source, i) in attempts ensures i < n {
      assert !(n <= i < 1000);
    }
  }

  // ---------------------------------------------------------------- replies

  /** A reservation: a pending row that holds quota of the window. */
  ghost predicate Reserves(db: Db, txn: Txn<Prepared>, source: MessageKey, w: WindowId) {
    && txn.Commit? && txn.value.Reserved? && NextKey(db.attempts, source, txn.value.key)
    && OnlyAt(db, txn.db, txn.value.key, w) && txn.db.sent == db.sent
    && txn.db.attempts[txn.value.key].status == Pending && txn.db.attempts[txn.value.key].issued
    && Fresh(txn.db.attempts[txn.value.key], w, db.windows[w], McpTool)
    && Counts(db.windows[w], txn.db.windows[w], 1, 1, 0)
  }

  /** A recorded refusal: a failed row that holds no quota, and untouched windows. */
  ghost predicate Records(db: Db, txn: Txn<Prepared>, source: MessageKey, w: WindowId, error: Error) {
    && txn.Commit? && txn.value == Prepared.Rejected(txn.value.key, error)
    && NextKey(db.attempts, source, txn.value.key)
    && OnlyAt(db, txn.db, txn.value.key, w) && txn.db.sent == db.sent && txn.db.windows == db.windows
    && txn.db.attempts[txn.value.key].status == FailedSend && !txn.db.attempts[txn.value.key].issued
    && txn.db.attempts[txn.value.key].reason
         == (if error == ReplyWindowExpiredError then ReplyWindowExpired else ReplyQuotaExhausted)
    && Fresh(txn.db.attempts[txn.value.key], w, db.windows[w], McpTool)
  }

  /** Why a bound session gets no reply through a window. */
  function Refusal(w: Window, now: nat): Error {
    if now >= w.expiresAt then ReplyWindowExpiredError
    else if w.state != Open then ReplyWindowInactive
    else ReplyQuotaExhaustedError
  }

  function KeyFor(db: Db, source: MessageKey): AttemptKey { AttemptKey(source, NextIndex(db.attempts, source, 1000)) }

  lemma ReservedTxn(db: Db, token: Token, w: WindowId, persist: bool, now: nat)
    requires HasSessionRow(db, token) && db.sessions[token].window == Some(w) && SessionError(db, token, now).None?
    requires db.windows[w].state == Open && db.windows[w].reserved + db.windows[w].transmitted < 10
    requires NextIndex(db.attempts, db.sessions[token].source, 1000) < 1000
    ensures var window, key := db.windows[w], KeyFor(db, db.sessions[token].source);
      PrepareReply(db, token, persist, now) == Commit(db.(
        windows := db.windows[w := window.(next := window.next + 1, reserved := window.reserved + 1, updatedAt := now)],
        attempts := db.attempts[key := NewAttempt(window, w, McpTool, Pending, NoReason, now)]), Reserved(key))
  {
    hide SessionError, NextIndex;
  }

  lemma RecordedTxn(db: Db, token: Token, w: WindowId, now: nat, error: Error)
    requires HasSessionRow(db, token) && db.sessions[token].window == Some(w)
    requires NextIndex(db.attempts, db.sessions[token].source, 1000) < 1000
    requires var failure := SessionError(db, token, now);
      if error == ReplyWindowExpiredError then failure == Some(error)
      else
        && error == ReplyQuotaExhaustedError && failure.None?
        && db.windows[w].reserved + db.windows[w].transmitted >= 10
    ensures var key := KeyFor(db, db.sessions[token].source);
      var reason := if error == ReplyWindowExpiredError then ReplyWindowExpired else ReplyQuotaExhausted;
      PrepareReply(db, token, true, now) == Commit(db.(
        attempts := db.attempts[key := NewAttempt(db.windows[w], w, McpTool, FailedSend, reason, now)]),
        Prepared.Rejected(key, error))
  {
    hide SessionError, NextIndex;
  }

  lemma RefusedTxn(db: Db, token: Token, w: WindowId, persist: bool, now: nat)
    requires Inv(db) && Bound(db, token, w, now)
    requires var window := db.windows[w];
      !(Usable(window, now) && window.reserved + window.transmitted < 10)
      && (persist ==> Refusal(window, now) == ReplyWindowInactive)
    ensures PrepareReply(db, token, persist, now) == Rollback(Refusal(db.windows[w], now))
  {
    BoundWorks(db, token, w, now);
    hide Inv, Bound, SessionError, NextIndex;
  }

  lemma PutIsOnlyAt(db: Db, key: AttemptKey, a: Attempt, w: WindowId, next: nat, reserved: nat, transmitted: nat,
                    now: nat, sent: multiset<WindowId>)
    requires w in db.windows
    ensures var window := db.windows[w].(next := next, reserved := reserved, transmitted := transmitted,
      updatedAt := now);
      var after := db.(windows := db.windows[w := window], attempts := db.attempts[key := a], sent := sent);
      OnlyAt(db, after, key, w) && after.attempts[key] == a && after.windows[w] == window
  {}

  lemma PutOnlyAttempt(db: Db, key: AttemptKey, a: Attempt, w: WindowId)
    requires w in db.windows
    ensures var after := db.(attempts := db.attempts[key := a]); OnlyAt(db, after, key, w) && after.attempts[key] == a
  {
    assert db.windows[w := db.windows[w]] == db.windows;
  }

  lemma ReservationIsMade(db: Db, token: Token, w: WindowId, persist: bool, now: nat)
    requires Inv(db) && Bound(db, token, w, now) && AttemptKey(db.sessions[token].source, 999) !in db.attempts
    requires Usable(db.windows[w], now) && db.windows[w].reserved + db.windows[w].transmitted < 10
    ensures Reserves(db, PrepareReply(db, token, persist, now), db.sessions[token].source, w)
  {
    var window, source := db.windows[w], db.sessions[token].source;
    var key := KeyFor(db, source);
    BoundWorks(db, token, w, now);
    NextIndexIsNext(db.attempts, source);
    hide Inv, Bound, SessionError, NextIndex, NextKey, HasSessionRow;
    ReservedTxn(db, token, w, persist, now);
    hide PrepareReply, OnlyAt;
    PutIsOnlyAt(db, key, NewAttempt(window, w, McpTool, Pending, NoReason, now), w, window.next + 1,
                window.reserved + 1,
                window.transmitted, now, db.sent);
  }

  lemma RefusalIsRecorded(db: Db, token: Token, w: WindowId, now: nat)
    requires Inv(db) && Bound(db, token, w, now) && AttemptKey(db.sessions[token].source, 999) !in db.attempts
    requires !(Usable(db.windows[w], now) && db.windows[w].reserved + db.windows[w].transmitted < 10)
    requires Refusal(db.windows[w], now) != ReplyWindowInactive
    ensures Records(db, PrepareReply(db, token, true, now), db.sessions[token].source, w, Refusal(db.windows[w], now))
  {
    var window, source, error := db.windows[w], db.sessions[token].source, Refusal(db.windows[w], now);
    var reason := if error == ReplyWindowExpiredError then ReplyWindowExpired else ReplyQuotaExhausted;
    BoundWorks(db, token, w, now);
    NextIndexIsNext(db.attempts, source);
    hide Inv, Bound, SessionError, NextIndex, NextKey, HasSessionRow;
    RecordedTxn(db, token, w, now, error);
    hide PrepareReply, OnlyAt;
    PutOnlyAttempt(db, KeyFor(db, source), NewAttempt(window, w, McpTool, FailedSend, reason, now), w);
  }

  /**
   A reply through a bound session, while its message has a free index: it is reserved exactly if its window is
   open, has not expired and has fewer than ten sends reserved or done; otherwise the refusal is recorded if
   that is asked for, with the reason, unless the window was retired.
   */
  lemma ReplyIsReserved(db: Db, token: Token, w: WindowId, persist: bool, now: nat)
    requires Inv(db) && Bound(db, token, w, now) && AttemptKey(db.sessions[token].source, 999) !in db.attempts
    ensures var txn, window, source := PrepareReply(db, token, persist, now), db.windows[w], db.sessions[token].source;
      && ((txn.Commit? && txn.value.Reserved?)
          <==> window.state == Open && now < window.expiresAt && window.reserved + window.transmitted < 10)
      && (if window.state == Open && now < window.expiresAt && window.reserved + window.transmitted < 10
          then Reserves(db, txn, source, w)
          else if persist && Refusal(window, now) != ReplyWindowInactive
          then Records(db, txn, source, w, Refusal(window, now))
          else txn == Rollback(Refusal(window, now)))
  {
    var window := db.windows[w];
    if Usable(window, now) && window.reserved + window.transmitted < 10 {
      ReservationIsMade(db, token, w, persist, now);
    } else if persist && Refusal(window, now) != ReplyWindowInactive {
      RefusalIsRecorded(db, token, w, now);
    } else {
      RefusedTxn(db, token, w, persist, now);
    }
    hide Inv, Bound, PrepareReply, NextKey, OnlyAt, Fresh, Counts;
  }

  /** Through a session that is not bound, nothing is reserved and nothing recorded. */
  lemma UnboundReply(db: Db, token: Token, persist: bool, now: nat)
    requires Inv(db) && forall w :: !Bound(db, token, w, now)
    ensures PrepareReply(db, token, persist, now).Rollback?
  {
    UnboundFails(db, token, now);
    hide Inv, SessionError, NextIndex;
  }

  /** A message whose thousand indices are used up gets no further reply. */
  lemma NoIndexLeft(db: Db, token: Token, persist: bool, now: nat)
    requires token in db.sessions && AttemptKey(db.sessions[token].source, 999) in db.attempts
    ensures PrepareReply(db, token, persist, now).Rollback?
  {
    LastIndex(db.attempts, db.sessions[token].source);
    hide SessionError, NextIndex, Rejection;
  }

  lemma LastIndex(attempts: map<AttemptKey, Attempt>, source: MessageKey)
    requires AttemptKey(source, 999) in attempts
    ensures NextIndex(attempts, source, MAX_ATTEMPTS) == MAX_ATTEMPTS
  {}

  /** Nor a system message. */
  lemma NoIndexForSystem(db: Db, key: MessageKey, origin: Origin, now: nat)
    requires AttemptKey(key, 999) in db.attempts
    ensures StartSystem(db, key, origin, now).Rollback?
  {
    LastIndex(db.attempts, key);
    hide SourceWindow, NextIndex, SendingIn;
  }

  // ---------------------------------------------------------------- transmission and release

  /** The attempt leaves the reserved ones of its window, and goes on the wire or not. */
  ghost predicate Moves(db: Db, after: Db, key: AttemptKey, a: Attempt, w: WindowId, transmitted: nat,
                        sent: multiset<WindowId>) {
    && OnlyAt(db, after, key, w) && after.attempts[key] == a && after.sent == db.sent + sent
    && Counts(db.windows[w], after.windows[w], 0, -1, transmitted)
  }

  lemma PutMoves(db: Db, key: AttemptKey, a: Attempt, w: WindowId, transmitted: nat, now: nat, sent: multiset<WindowId>)
    requires w in db.windows && db.windows[w].reserved > 0
    ensures var window := db.windows[w];
      Moves(db, db.(
        windows := db.windows[w := window.(reserved := window.reserved - 1,
          transmitted := window.transmitted + transmitted,
          updatedAt := now)],
        attempts := db.attempts[key := a], sent := db.sent + sent), key, a, w, transmitted, sent)
  {}

  /** The attempt is reserved through the window of the session, and the wire of the conversation is free. */
  ghost predicate Startable(db: Db, token: Token, w: WindowId, key: AttemptKey, now: nat) {
    && Bound(db, token, w, now) && Usable(db.windows[w], now)
    && key in db.attempts && db.attempts[key].status == Pending && db.attempts[key].window == Some(w)
    && forall k :: k in db.attempts && db.attempts[k].conv == db.windows[w].conv ==> db.attempts[k].status != Sending
  }

  lemma StartTxn(db: Db, token: Token, w: WindowId, key: AttemptKey, now: nat)
    requires HasSessionRow(db, token) && db.sessions[token].window == Some(w) && SessionError(db, token, now).None?
    requires key in db.attempts && db.attempts[key].status == Pending && db.attempts[key].window == Some(w)
    requires db.attempts[key].conv == db.windows[w].conv && !SendingIn(db.attempts, db.windows[w].conv)
    requires 0 < db.windows[w].reserved && StartReply(db, token, key, now) != Rollback(CounterConflict)
    ensures var window := db.windows[w];
      StartReply(db, token, key, now) == Commit(db.(
        attempts := db.attempts[key := db.attempts[key].(status := Sending, updatedAt := now)],
        windows := db.windows[w := window.(reserved := window.reserved - 1, transmitted := window.transmitted + 1,
          updatedAt := now)],
        sent := db.sent + multiset{w}), key)
  {
    hide SessionError, SendingIn;
  }

  lemma ReservedIsPositive(db: Db, key: AttemptKey)
    requires Inv(db) && key in db.attempts && db.attempts[key].conv.channel == WeixinIlink
    requires db.attempts[key].status == Pending
    ensures db.attempts[key].window.Some? && db.attempts[key].window.value in db.windows
    ensures db.windows[db.attempts[key].window.value].reserved > 0
    ensures db.attempts[key].conv == db.windows[db.attempts[key].window.value].conv
  {
    AttemptFacts(db, key);
    hide Inv;
    PendingIsReserved(db, key);
  }

  /** A reserved attempt goes on the wire exactly then, and its reservation becomes a transmission. */
  lemma ReplyIsStarted(db: Db, token: Token, w: WindowId, key: AttemptKey, now: nat)
    requires Inv(db) && Startable(db, token, w, key, now)
    ensures StartReply(db, token, key, now).Commit? && StartReply(db, token, key, now).value == key
    ensures Moves(db, StartReply(db, token, key, now).db, key, db.attempts[key].(status := Sending, updatedAt := now),
                  w, 1, multiset{w})
  {
    hide *;
    StartableFacts(db, token, w, key, now);
    StartTxn(db, token, w, key, now);
    PutMoves(db, key, db.attempts[key].(status := Sending, updatedAt := now), w, 1, now, multiset{w});
  }

  lemma StartableFacts(db: Db, token: Token, w: WindowId, key: AttemptKey, now: nat)
    requires Inv(db) && Startable(db, token, w, key, now)
    ensures HasSessionRow(db, token) && db.sessions[token].window == Some(w) && SessionError(db, token, now).None?
    ensures key in db.attempts && db.attempts[key].status == Pending && db.attempts[key].window == Some(w)
    ensures w in db.windows && db.attempts[key].conv == db.windows[w].conv && 0 < db.windows[w].reserved
    ensures !SendingIn(db.attempts, db.windows[w].conv)
    ensures StartReply(db, token, key, now) != Rollback(CounterConflict)
  {
    BoundWorks(db, token, w, now);
    AttemptFacts(db, key);
    NoCounterConflict(db, token, key, false, false, now);
    hide Inv, Bound, SessionError, HasSessionRow, StartReply;
    ReservedIsPositive(db, key);
  }

  lemma OnlyStartable(db: Db, token: Token, key: AttemptKey, now: nat)
    requires Inv(db) && forall w :: !Startable(db, token, w, key, now)
    ensures StartReply(db, token, key, now).Rollback?
  {
    if w :| Bound(db, token, w, now) {
      BoundWorks(db, token, w, now);
      assert !Startable(db, token, w, key, now);
      hide Inv, Bound, SessionError;
    } else {
      UnboundFails(db, token, now);
      hide Inv, Bound, SessionError;
    }
  }

  /** A pending iLink attempt fails with the reason given and returns its reservation. */
  lemma ReplyIsReleased(db: Db, key: AttemptKey, expired: bool, now: nat)
    requires Inv(db) && key in db.attempts && db.attempts[key].conv.channel == WeixinIlink
    requires db.attempts[key].status == Pending
    ensures ReleasePending(db, key, expired, now).Commit? && ReleasePending(db, key, expired, now).value
    ensures db.attempts[key].window.Some?
    ensures Moves(db, ReleasePending(db, key, expired, now).db, key, db.attempts[key].(status := FailedSend,
                    updatedAt := now, reason := if expired then ReplyWindowExpired else CancelledBeforeTransmit),
                  db.attempts[key].window.value, 0, multiset{})
  {
    hide *;
    ReservedIsPositive(db, key);
    var reason := if expired then ReplyWindowExpired else CancelledBeforeTransmit;
    ReleaseTxn(db, key, expired, now);
    PutMoves(db, key, db.attempts[key].(status := FailedSend, updatedAt := now, reason := reason),
             db.attempts[key].window.value, 0, now, multiset{});
  }

  lemma ReleaseTxn(db: Db, key: AttemptKey, expired: bool, now: nat)
    requires key in db.attempts && db.attempts[key].conv.channel == WeixinIlink && db.attempts[key].status == Pending
    requires db.attempts[key].window.Some? && db.attempts[key].window.value in db.windows
    requires db.windows[db.attempts[key].window.value].reserved > 0
    ensures var a, w := db.attempts[key], db.attempts[key].window.value;
      ReleasePending(db, key, expired, now) == Commit(db.(
        windows := db.windows[w := db.windows[w].(reserved := db.windows[w].reserved - 1,
          transmitted := db.windows[w].transmitted + 0, updatedAt := now)],
        attempts := db.attempts[key := a.(status := FailedSend, updatedAt := now,
          reason := if expired then ReplyWindowExpired else CancelledBeforeTransmit)],
        sent := db.sent + multiset{}), true)
  {}

  /** Releasing anything else changes nothing. */
  lemma NothingToRelease(db: Db, key: AttemptKey, expired: bool, now: nat)
    requires key in db.attempts ==> db.attempts[key].conv.channel != WeixinIlink || db.attempts[key].status != Pending
    ensures ReleasePending(db, key, expired, now) == Commit(db, false)
  {}

  // ---------------------------------------------------------------- system messages

  /** A system message may go out through the window. */
  ghost predicate SystemUsable(db: Db, w: WindowId, now: nat)
    requires w in db.windows
  {
    var window := db.windows[w];
    && window.conv.account in db.accounts
    && db.accounts[window.conv.account].status == Active
    && db.accounts[window.conv.account].generation == window.generation
    && Usable(window, now) && window.reserved + window.transmitted < 10
    && forall k :: k in db.attempts && db.attempts[k].conv == window.conv ==> db.attempts[k].status != Sending
  }

  lemma SourceWindowIs(db: Db, key: MessageKey)
    requires Inv(db)
    ensures SourceWindow(db, key).None? ==> forall w :: w in db.windows ==> db.windows[w].source != key
    ensures SourceWindow(db, key).Some? ==>
      && SourceWindow(db, key).value in db.windows
      && db.windows[SourceWindow(db, key).value].source == key
      && forall w :: w in db.windows && db.windows[w].source == key ==> w == SourceWindow(db, key).value
  {
    WindowBound(db);
    assert UniqueWindows(db.windows);
    hide Inv;
  }

  ghost predicate SentAtOnce(db: Db, txn: Txn<AttemptKey>, w: WindowId, origin: Origin)
    requires w in db.windows
  {
    && txn.Commit?
    && NextKey(db.attempts, db.windows[w].source, txn.value) && OnlyAt(db, txn.db, txn.value, w)
    && txn.db.attempts[txn.value].status == Sending && txn.db.attempts[txn.value].issued
    && Fresh(txn.db.attempts[txn.value], w, db.windows[w], origin)
    && Counts(db.windows[w], txn.db.windows[w], 1, 0, 1) && txn.db.sent == db.sent + multiset{w}
  }

  lemma SystemTxn(db: Db, w: WindowId, origin: Origin, now: nat)
    requires w in db.windows && SourceWindow(db, db.windows[w].source) == Some(w)
    requires NextIndex(db.attempts, db.windows[w].source, 1000) < 1000
    ensures var txn, window := StartSystem(db, db.windows[w].source, origin, now), db.windows[w];
      var key := KeyFor(db, window.source);
      && (txn.Commit? <==> SystemUsable(db, w, now))
      && (txn.Commit? ==> txn == Commit(db.(
            windows := db.windows[w := window.(next := window.next + 1, transmitted := window.transmitted + 1,
              updatedAt := now)],
            attempts := db.attempts[key := NewAttempt(window, w, origin, Sending, NoReason, now)],
            sent := db.sent + multiset{w}), key))
      && (Usable(window, now) && window.reserved + window.transmitted >= 10 ==>
            txn.Rollback? && txn.error in {ReplyQuotaExhaustedError, ReplyWindowInactive})
  {
    hide NextIndex, SourceWindow;
  }

  /** Exactly then it goes on the wire at once, as the next attempt of the window's source. */
  lemma SystemMessageIsSent(db: Db, w: WindowId, origin: Origin, now: nat)
    requires Inv(db) && w in db.windows && AttemptKey(db.windows[w].source, 999) !in db.attempts
    ensures var txn, window := StartSystem(db, db.windows[w].source, origin, now), db.windows[w];
      && (txn.Commit? <==> SystemUsable(db, w, now))
      && (txn.Commit? ==> SentAtOnce(db, txn, w, origin))
      && (Usable(window, now) && window.reserved + window.transmitted >= 10 ==>
            txn.Rollback? && txn.error in {ReplyQuotaExhaustedError, ReplyWindowInactive})
  {
    var window := db.windows[w];
    SourceWindowIs(db, window.source);
    NextIndexIsNext(db.attempts, window.source);
    hide Inv, NextIndex, NextKey, SourceWindow, OnlyAt, SystemUsable;
    SystemTxn(db, w, origin, now);
    hide StartSystem;
    PutIsOnlyAt(db, KeyFor(db, window.source), NewAttempt(window, w, origin, Sending, NoReason, now), w,
                window.next + 1, window.reserved, window.transmitted + 1, now, db.sent + multiset{w});
  }

  /** No message without a window gets a system message. */
  lemma NoWindowNoMessage(db: Db, key: MessageKey, origin: Origin, now: nat)
    requires Inv(db) && forall w :: w in db.windows ==> db.windows[w].source != key
    ensures StartSystem(db, key, origin, now) == Rollback(ReplyWindowNotFound)
  {
    SourceWindowIs(db, key);
    hide Inv, SourceWindow;
  }

  // ---------------------------------------------------------------- recovery

  /** Exactly the pending iLink attempts fail, as abandoned. */
  ghost predicate Abandoned(db: Db, after: map<AttemptKey, Attempt>, now: nat) {
    after.Keys == db.attempts.Keys
    && forall k :: k in db.attempts ==>
         after[k] == (if db.attempts[k].conv.channel == WeixinIlink && db.attempts[k].status == Pending
           then db.attempts[k].(status := FailedSend, reason := AbandonedBeforeTransmit, updatedAt := now)
           else db.attempts[k])
  }

  /** Every window gets back what its pending attempts held. */
  ghost predicate Returned(db: Db, after: map<WindowId, Window>) {
    after.Keys == db.windows.Keys && forall w :: w in db.windows ==>
      && |PendingOf(db.attempts, w)| <= db.windows[w].reserved
      && after[w] == db.windows[w].(reserved := db.windows[w].reserved - |PendingOf(db.attempts, w)|,
           updatedAt := after[w].updatedAt)
  }

  lemma NothingPendingLeft(db: Db, after: map<AttemptKey, Attempt>, now: nat)
    requires Abandoned(db, after, now)
    ensures PendingIlink(after) == {}
  {}

  /** Recovery fails every pending iLink attempt and returns exactly the reservations that these held; that is all. */
  lemma RecoveryReturnsReservations(db: Db, now: nat)
    requires Inv(db)
    ensures var txn := RecoverPending(db, now);
      && txn.Commit? && txn.value == |PendingIlink(db.attempts)| && PendingIlink(txn.db.attempts) == {}
      && txn.db == db.(attempts := txn.db.attempts, windows := txn.db.windows)
      && Abandoned(db, txn.db.attempts, now) && Returned(db, txn.db.windows)
  {
    NoCounterConflict(db, 0, AttemptKey(MessageKey(WeixinIlink, "", ""), 0), false, false, now);
    forall w | w in db.windows ensures |PendingOf(db.attempts, w)| <= db.windows[w].reserved { WindowFacts(db, w); }
    hide Inv;
    RecoveryAbandons(db, now);
    RecoveryReturns(db, now);
    hide Abandoned, Returned, Recoverable, PendingIlink, PendingOf, FailPending;
    NothingPendingLeft(db, RecoverPending(db, now).db.attempts, now);
  }

  lemma RecoveryAbandons(db: Db, now: nat)
    requires RecoverPending(db, now).Commit?
    ensures Abandoned(db, RecoverPending(db, now).db.attempts, now)
  {
    hide Recoverable, PendingOf;
  }

  lemma RecoveryReturns(db: Db, now: nat)
    requires RecoverPending(db, now).Commit?
    requires forall w :: w in db.windows ==> |PendingOf(db.attempts, w)| <= db.windows[w].reserved
    ensures Returned(db, RecoverPending(db, now).db.windows)
  {
    hide Recoverable, PendingOf, PendingIlink, FailPending;
  }
}
