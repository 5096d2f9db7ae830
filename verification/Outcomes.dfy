/**
 What the transactions of the core store mean for the rows: when each of them commits, which rows it changes,
 and that it changes no others.
 */
module Outcomes {
  import opened Basics
  import opened Tables
  import opened Ledger
  import opened Inbox
  import opened Authorization
  import opened Events
  import opened Invariants
  import opened InboxProofs
  import opened LedgerProofs
  import opened Runs
  import opened Safety
  import opened Quota
  import opened PageProofs
  import opened PageRows
  import opened Steps

  // ---------------------------------------------------------------- transitions of one message

  /** The transactions that move one message. */
  predicate MovesOne(e: Event) {
    e.Claimed? || e.Prepared? || e.Ignore? || e.Complete? || e.Steer? || e.Confirm? || e.Requeue?
  }

  /** From which statuses a message may be moved. */
  function MovedFrom(e: Event): set<InboundStatus>
    requires MovesOne(e)
  {
    match e
    case Claimed(_) => {Received, Failed}
    case Prepared(_, _) => {Processing, Preparing}
    case Ignore(_) | Complete(_) | Steer(_, _) => {Received}
    case Confirm(_, _) | Requeue(_, _) => {Steering}
  }

  function MovedTo(e: Event): InboundStatus
    requires MovesOne(e)
  {
    match e
    case Claimed(_) => Processing
    case Prepared(_, _) => Preparing
    case Ignore(_) => Ignored
    case Complete(_) => Completed
    case Steer(_, _) => Steering
    case Confirm(_, _) => Steered
    case Requeue(_, _) => Received
  }

  /** What else a move needs: an active primary of the conversation to steer, and the same primary to requeue. */
  predicate MayMove(db: Db, e: Event)
    requires MovesOne(e)
  {
    && e.key in db.messages && db.messages[e.key].status in MovedFrom(e)
    && (e.Steer? ==>
          && e.primary in db.messages && db.messages[e.primary].status in {Processing, Preparing}
          && db.messages[e.primary].conv == db.messages[e.key].conv)
    && (e.Requeue? ==> db.messages[e.key].primary == Some(e.primary))
  }

  /** What a move may change beside the status: settled messages lose their payload, steering carries its turn. */
  ghost predicate MovedRow(db: Db, e: Event, m: Inbound, m': Inbound, now: nat)
    requires MovesOne(e) && MayMove(db, e)
  {
    && m'.status == MovedTo(e) && m'.updatedAt == now
    && m'.inboxSeq == m.inboxSeq && m'.conv == m.conv && m'.customer == m.customer && m'.deferred == m.deferred
    && m'.payload == (if e.Ignore? || e.Complete? then None else m.payload)
    && m'.primary == (if e.Steer? then Some(e.primary) else if e.Requeue? then None else m.primary)
    && m'.turnId == (if e.Steer? then db.messages[e.primary].turnId
                     else if e.Requeue? then ""
                     else if e.Prepared? || e.Confirm? then e.turnId
                     else m.turnId)
  }

  /** Only one row of the messages differs. */
  ghost predicate OnlyMessage(db: Db, after: Db, key: MessageKey) {
    && key in db.messages && key in after.messages
    && after == db.(messages := db.messages[key := after.messages[key]])
  }

  /** A move that is possible is made and touches one row; one that is not possible changes nothing. */
  ghost predicate Moves(db: Db, e: Event, now: nat, after: Db)
    requires MovesOne(e)
  {
    if MayMove(db, e) then
      OnlyMessage(db, after, e.key) && MovedRow(db, e, db.messages[e.key], after.messages[e.key], now)
    else after == db
  }

  lemma ClaimMoves(db: Db, key: MessageKey, now: nat)
    ensures Moves(db, Claimed(key), now, After(db, Claim(db, key, now)))
  {
    var after := After(db, Claim(db, key, now));
    if MayMove(db, Claimed(key)) {
      assert after == db.(messages := db.messages[key := db.messages[key].(status := Processing, updatedAt := now)]);
    } else {
      assert after == db;
    }
  }

  lemma PreparingMoves(db: Db, key: MessageKey, turnId: string, now: nat)
    ensures Moves(db, Prepared(key, turnId), now, After(db, MarkPreparing(db, key, turnId, now)))
  {
    var after := After(db, MarkPreparing(db, key, turnId, now));
    if MayMove(db, Prepared(key, turnId)) {
      assert after == db.(messages :=
        db.messages[key := db.messages[key].(status := Preparing, turnId := turnId, updatedAt := now)]);
    } else {
      assert after == db;
    }
  }

  lemma IgnoreMoves(db: Db, key: MessageKey, now: nat)
    ensures Moves(db, Ignore(key), now, After(db, MarkIgnored(db, key, now)))
  {
    var after := After(db, MarkIgnored(db, key, now));
    if MayMove(db, Ignore(key)) {
      assert after == db.(messages :=
        db.messages[key := db.messages[key].(status := Ignored, payload := None, updatedAt := now)]);
    } else {
      assert after == db;
    }
  }

  lemma CompleteMoves(db: Db, key: MessageKey, now: nat)
    requires key in db.messages ==> db.messages[key].status == Received
    ensures Moves(db, Complete(key), now, After(db, MarkCompleted(db, key, now)))
  {
    var after := After(db, MarkCompleted(db, key, now));
    if MayMove(db, Complete(key)) {
      assert after == db.(messages :=
        db.messages[key := db.messages[key].(status := Completed, payload := None, updatedAt := now)]);
    } else {
      assert after == db;
    }
  }

  lemma SteerMoves(db: Db, key: MessageKey, primary: MessageKey, now: nat)
    ensures Moves(db, Steer(key, primary), now, After(db, BeginSteering(db, key, primary, now)))
  {
    var after := After(db, BeginSteering(db, key, primary, now));
    if MayMove(db, Steer(key, primary)) {
      assert after == db.(messages := db.messages[key :=
        db.messages[key].(status := Steering, primary := Some(primary), turnId := db.messages[primary].turnId,
        updatedAt := now)]);
    } else {
      assert after == db;
    }
  }

  lemma ConfirmMoves(db: Db, key: MessageKey, turnId: string, now: nat)
    ensures Moves(db, Confirm(key, turnId), now, After(db, ConfirmSteered(db, key, turnId, now)))
  {
    var after := After(db, ConfirmSteered(db, key, turnId, now));
    if MayMove(db, Confirm(key, turnId)) {
      assert after == db.(messages :=
        db.messages[key := db.messages[key].(status := Steered, turnId := turnId, updatedAt := now)]);
    } else {
      assert after == db;
    }
  }

  lemma RequeueMoves(db: Db, key: MessageKey, primary: MessageKey, now: nat)
    ensures Moves(db, Requeue(key, primary), now, After(db, RequeueSteering(db, key, primary, now)))
  {
    var after := After(db, RequeueSteering(db, key, primary, now));
    if MayMove(db, Requeue(key, primary)) {
      assert after == db.(messages := db.messages[key := Requeued(db.messages[key], now)]);
    } else {
      assert after == db;
    }
  }

  /** Every transaction that moves one message makes exactly the move that is possible. */
  lemma MessageMoves(db: Db, e: Event, now: nat)
    requires MovesOne(e)
    ensures Moves(db, e, now, Next(db, Tick(e, now)))
  {
    hide Moves, Claim, MarkPreparing, MarkIgnored, MarkCompleted, BeginSteering, ConfirmSteered, RequeueSteering, After;
    match e
    case Claimed(key) => ClaimMoves(db, key, now);
    case Prepared(key, turnId) => PreparingMoves(db, key, turnId, now);
    case Ignore(key) => IgnoreMoves(db, key, now);
    case Complete(key) =>
      if key in db.messages && db.messages[key].status != Received {
        CannotComplete(db, key, now);
      } else {
        CompleteMoves(db, key, now);
      }
    case Steer(key, primary) => SteerMoves(db, key, primary, now);
    case Confirm(key, turnId) => ConfirmMoves(db, key, turnId, now);
    case Requeue(key, primary) => RequeueMoves(db, key, primary, now);
  }

  lemma CannotComplete(db: Db, key: MessageKey, now: nat)
    requires key in db.messages && db.messages[key].status != Received
    ensures Moves(db, Complete(key), now, db)
  {}

  // ---------------------------------------------------------------- groups of messages

  /** The rows outside of the group are as before, and no row comes or goes. */
  ghost predicate OthersKept(db: Db, after: Db, group: set<MessageKey>) {
    && after.messages.Keys == db.messages.Keys && after.inbox == db.inbox
    && forall k :: k in db.messages && k !in group ==> after.messages[k] == db.messages[k]
  }

  function GroupOf(db: Db, key: MessageKey): set<MessageKey> {
    set k | k in db.messages && (k == key || db.messages[k].primary == Some(key))
  }

  /** What never changes in a row. */
  predicate SameMessage(m: Inbound, m': Inbound) {
    m'.inboxSeq == m.inboxSeq && m'.conv == m.conv && m'.customer == m.customer
  }

  /** The message waits again, alone. */
  predicate Waits(m: Inbound, m': Inbound) {
    SameMessage(m, m') && m'.status == Received && m'.primary.None? && m'.turnId == "" && m'.payload == m.payload
  }

  /**
   A failure of an active message: it keeps its payload for another attempt, those that were steered into it but
   never reached a turn wait again, and nothing else changes. A message that is not active cannot fail.
   */
  lemma FailureRequeues(db: Db, key: MessageKey, now: nat)
    ensures var txn := FailInbound(db, key, now);
      && txn.Commit? && txn.db == db.(messages := txn.db.messages)
      && (txn.value <==> key in db.messages && db.messages[key].status in {Processing, Preparing})
      && (!txn.value ==> txn.db == db)
      && (txn.value ==>
            && OthersKept(db, txn.db, GroupOf(db, key))
            && txn.db.messages[key] == db.messages[key].(status := Failed, updatedAt := now)
            && forall k :: k in GroupOf(db, key) && k != key ==>
                 if db.messages[k].status in {Steering, Steered} && db.messages[k].turnId == ""
                 then Waits(db.messages[k], txn.db.messages[k])
                   && txn.db.messages[k].deferred == db.messages[k].deferred
                 else txn.db.messages[k] == db.messages[k])
  {
    var txn := FailInbound(db, key, now);
    if txn.value {
      assert OthersKept(db, txn.db, GroupOf(db, key));
      forall k | k in GroupOf(db, key) && k != key && db.messages[k].status in {Steering, Steered}
        && db.messages[k].turnId == ""
        ensures txn.db.messages[k] == Requeued(db.messages[k], now) {}
    }
  }

  /** Suppression reaches every member of the group that is not final, and the attempts of its message. */
  lemma SuppressionReaches(db: Db, key: MessageKey, now: nat)
    ensures var txn := Suppress(db, key, now);
      && txn.Commit? && txn.db == db.(messages := txn.db.messages, attempts := txn.db.attempts)
      && OthersKept(db, txn.db, GroupOf(db, key))
      && (forall k :: k in GroupOf(db, key) ==>
            txn.db.messages[k] == if db.messages[k].status in {Completed, Ignored, Absorbed} then db.messages[k]
                                  else db.messages[k].(status := Suppressed, updatedAt := now))
      && txn.db.attempts.Keys == db.attempts.Keys
      && (forall k :: k in db.attempts ==>
            txn.db.attempts[k] == if k.source == key && db.attempts[k].status == Pending
              then db.attempts[k].(status := FailedSend, reason := SuppressedGroup, updatedAt := now)
              else db.attempts[k])
  {}

  /** Deferral happens exactly if nothing was sent but approvals, and touches only the group and its sessions. */
  lemma DeferralTouches(db: Db, key: MessageKey, now: nat)
    ensures var txn := DeferActive(db, key, now);
      var active := set k | k in GroupOf(db, key)
        && db.messages[k].status in {Failed, Processing, Preparing, Steering, Steered};
      && txn.Commit?
      && (txn.value <==>
            && active != {}
            && forall a :: a in db.attempts && a.source == key ==> db.attempts[a].origin == AgentApproval)
      && (txn.value ==>
            && txn.db == db.(messages := txn.db.messages, sessions := txn.db.sessions) && OthersKept(db, txn.db, active)
            && forall k :: k in active ==> Waits(db.messages[k], txn.db.messages[k]) && txn.db.messages[k].deferred)
      && ((exists a :: a in db.attempts && a.source == key && db.attempts[a].origin != AgentApproval) ==> txn.db == db)
  {
    hide CloseMessageSessions;
  }

  /** Promotion makes the waiting messages of one conversation live, and touches no other. */
  lemma PromotionTouches(db: Db, conv: Conversation, now: nat)
    ensures var txn := PromoteDeferred(db, conv, now);
      var chosen := set k | k in db.messages && db.messages[k].conv == conv && db.messages[k].status == Received
        && db.messages[k].deferred;
      && txn.Commit? && txn.db == db.(messages := txn.db.messages) && OthersKept(db, txn.db, chosen)
      && forall k :: k in chosen ==> txn.db.messages[k] == db.messages[k].(deferred := false, updatedAt := now)
  {}

  // ---------------------------------------------------------------- finalization

  /** The report names every attempt that the message made through the tools, once, and all of them are over. */
  ghost predicate Reported(db: Db, key: MessageKey, reported: seq<AttemptKey>) {
    && 1 <= |reported| <= 1000
    && (forall i, j :: 0 <= i < j < |reported| ==> reported[i] != reported[j])
    && (forall k :: k in reported <==> k in db.attempts && k.source == key && db.attempts[k].origin == McpTool)
    && (forall k :: k in reported ==> db.attempts[k].status in {Accepted, FailedSend, Uncertain})
  }

  lemma ReportedIs(db: Db, key: MessageKey, reported: seq<AttemptKey>)
    ensures Reported(db, key, reported) <==>
      && reported != [] && |reported| <= MAX_ATTEMPTS
      && (forall i, j :: 0 <= i < j < |reported| ==> reported[i] != reported[j])
      && (set k | k in reported) == ToolAttempts(db.attempts, key)
      && (forall k :: k in ToolAttempts(db.attempts, key) ==>
            db.attempts[k].status in {Accepted, FailedSend, Uncertain})
  {
    var named := set k | k in reported;
    assert forall k :: k in reported <==> k in named;
    if Reported(db, key, reported) {
      forall k | k in ToolAttempts(db.attempts, key) ensures k in named && k in reported {}
      assert named == ToolAttempts(db.attempts, key);
    }
  }

  /**
   In a reachable state an execution is finalized exactly if the report is complete, the message is being worked
   on or was already completed, and every message named as steered was steered into it.
   */
  lemma FinalizesExactly(db: Db, key: MessageKey, steered: set<MessageKey>, reported: seq<AttemptKey>, now: nat)
    requires Inv(db)
    ensures Finalize(db, key, steered, reported, now).Commit? <==>
      && Reported(db, key, reported)
      && key in db.messages && db.messages[key].status in {Processing, Preparing, Ready, Completed}
      && forall k :: k in steered ==>
           k in db.messages && db.messages[k].status == Steered && db.messages[k].primary == Some(key)
  {
    InvWithinBudget(db, key);
    ReportedIs(db, key, reported);
    hide Inv, WithinBudget, Reported, ToolAttempts;
  }

  /** A session can never be used again. */
  ghost predicate NeverLive(s: Session) { forall later: nat :: !Live(later, s) }

  /**
   A finalized message is completed, the messages steered into it are absorbed, and neither keeps its payload;
   no session of the message is ever live again. Nothing else changes.
   */
  lemma FinalizedRows(db: Db, key: MessageKey, steered: set<MessageKey>, reported: seq<AttemptKey>, now: nat)
    requires now > 0 && Finalize(db, key, steered, reported, now).Commit?
    ensures var after := Finalize(db, key, steered, reported, now).db;
      && after == db.(messages := after.messages, sessions := after.sessions)
      && key in db.messages && steered <= db.messages.Keys && key !in steered
      && OthersKept(db, after, steered + {key})
      && after.messages[key].status == Completed && after.messages[key].payload.None?
      && SameMessage(db.messages[key], after.messages[key])
      && (forall k :: k in steered ==>
            && after.messages[k].status == Absorbed && after.messages[k].payload.None?
            && SameMessage(db.messages[k], after.messages[k]))
      && after.sessions.Keys == db.sessions.Keys
      && (forall t :: t in db.sessions ==>
            if db.sessions[t].source == key then NeverLive(after.sessions[t]) else after.sessions[t] == db.sessions[t])
  {
    hide WithinBudget, ToolAttempts;
  }

  // ---------------------------------------------------------------- Agent sessions

  /** An iLink boundary is available: its own window is open and has not expired. */
  ghost predicate Answerable(db: Db, boundary: MessageKey, now: nat) {
    exists w :: w in db.windows && db.windows[w].source == boundary && db.windows[w].state == Open
      && db.windows[w].expiresAt > now
  }

  lemma BoundaryIs(db: Db, key: MessageKey, boundary: MessageKey, now: nat)
    requires Inv(db) && key in db.messages && boundary in db.messages
    requires db.messages[boundary].conv == db.messages[key].conv
    ensures Boundary(db, key, boundary, now).Some? <==>
      (db.messages[key].conv.channel == WeixinIlink ==> Answerable(db, boundary, now))
    ensures Boundary(db, key, boundary, now).Some? ==>
      Boundary(db, key, boundary, now).value.0 == db.messages[boundary].inboxSeq
  {
    SourceWindowIs(db, boundary);
    if w :| w in db.windows && db.windows[w].source == boundary { WindowFacts(db, w); }
    hide Inv, SourceWindow;
  }

  /** A session is opened exactly for a message being worked on and a boundary of its conversation that is available. */
  lemma SessionOpens(db: Db, token: Token, key: MessageKey, boundary: MessageKey, ttl: nat, now: nat)
    requires Inv(db) && token !in db.sessions
    ensures var txn := CreateSession(db, token, key, boundary, ttl, now);
      && (txn.Commit? <==>
            && key in db.messages && db.messages[key].status in {Processing, Preparing}
            && boundary in db.messages && db.messages[boundary].conv == db.messages[key].conv
            && (db.messages[key].conv.channel == WeixinIlink ==> Answerable(db, boundary, now)))
      && (txn.Commit? ==>
            && txn.db == db.(sessions := txn.db.sessions) && txn.db.sessions.Keys == db.sessions.Keys + {token}
            && var s := txn.db.sessions[token];
               && s.source == key && s.conv == db.messages[key].conv && s.closedAt == 0
               && s.boundarySeq == db.messages[boundary].inboxSeq
               && s.expiresAt == now + (if ttl < 1000 then 1000 else if ttl > 3_600_000 then 3_600_000 else ttl))
  {
    if key in db.messages && boundary in db.messages && db.messages[boundary].conv == db.messages[key].conv {
      BoundaryIs(db, key, boundary, now);
    }
    hide Inv, Boundary, Answerable;
  }

  /** Sessions that are closed are never live again; the others are not touched. */
  ghost predicate Closes(before: map<Token, Session>, after: map<Token, Session>, chosen: set<Token>) {
    && after.Keys == before.Keys
    && (forall t :: t in before && t in chosen ==> NeverLive(after[t]))
    && (forall t :: t in before && t !in chosen ==> after[t] == before[t])
  }

  lemma SessionsEnd(db: Db, token: Token, key: MessageKey, now: nat)
    requires now > 0
    ensures var txn := CloseSession(db, token, now);
      && txn.Commit? && txn.db == db.(sessions := txn.db.sessions) && Closes(db.sessions, txn.db.sessions, {token})
      && (txn.value <==> token in db.sessions && db.sessions[token].closedAt == 0)
    ensures var txn := CloseSessionsOf(db, key, now);
      && txn.Commit? && txn.db == db.(sessions := txn.db.sessions)
      && Closes(db.sessions, txn.db.sessions, set t | t in db.sessions && db.sessions[t].source == key)
  {}

  // ---------------------------------------------------------------- sends of the WeChat KF channel

  /** One attempt was put, everything else is as before. */
  ghost predicate OnlyAttempt(db: Db, after: Db, key: AttemptKey) {
    key in after.attempts && after == db.(attempts := db.attempts[key := after.attempts[key]])
  }

  /** A message of the customer that came in behind the session's boundary. */
  predicate Newer(m: Inbound, s: Session) { m.conv == s.conv && m.customer && m.inboxSeq > s.boundarySeq }

  /** No customer's message behind the boundary, other than an ignored one, is in the conversation. */
  ghost predicate UpToDate(db: Db, s: Session) {
    forall k :: k in db.messages && Newer(db.messages[k], s) ==> db.messages[k].status == Ignored
  }

  /** Fewer than five sends of the message were made: none has an index from 4 on. */
  ghost predicate HasRoom(attempts: map<AttemptKey, Attempt>, source: MessageKey) {
    forall i: nat :: 4 <= i < 1000 ==> AttemptKey(source, i) !in attempts
  }

  lemma RoomIs(attempts: map<AttemptKey, Attempt>, source: MessageKey)
    requires AttemptKey(source, 999) !in attempts
    ensures HasRoom(attempts, source) <==> NextIndex(attempts, source, 1000) < 5
  {
    NextIndexIsNext(attempts, source);
    var n := NextIndex(attempts, source, 1000);
    if n >= 5 { assert AttemptKey(source, n - 1) in attempts; }
    hide NextIndex;
  }

  /**
   A KF send is reserved exactly while the session lives, its message is worked on, no newer message of the
   customer has come in, and fewer than five sends were made.
   */
  lemma SendIsReserved(db: Db, token: Token, now: nat)
    requires Inv(db) && token in db.sessions && AttemptKey(db.sessions[token].source, 999) !in db.attempts
    ensures var s := db.sessions[token];
      ReserveAgentSend(db, token, now).Commit? <==>
        && s.closedAt == 0 && now < s.expiresAt && s.conv.channel == WechatKf
        && s.source in db.messages && db.messages[s.source].status in {Processing, Preparing}
        && UpToDate(db, s) && HasRoom(db.attempts, s.source)
  {
    var s := db.sessions[token];
    RoomIs(db.attempts, s.source);
    if s.conv.channel == WechatKf { UsableIs(db, token, now); }
    hide Inv, SessionUsable, NextIndex, UpToDate, HasRoom;
  }

  /** Then it is on the wire at once, as the next attempt of its message. */
  lemma ReservedIsSent(db: Db, token: Token, now: nat)
    requires token in db.sessions && AttemptKey(db.sessions[token].source, 999) !in db.attempts
    requires ReserveAgentSend(db, token, now).Commit?
    ensures var txn, s := ReserveAgentSend(db, token, now), db.sessions[token];
      && NextKey(db.attempts, s.source, txn.value) && OnlyAttempt(db, txn.db, txn.value)
      && txn.db.attempts[txn.value].status == Sending && txn.db.attempts[txn.value].origin == McpTool
      && txn.db.attempts[txn.value].conv == s.conv && txn.db.attempts[txn.value].window.None?
      && txn.db.attempts[txn.value].providerMessageId == ""
  {
    NextIndexIsNext(db.attempts, db.sessions[token].source);
    hide SessionUsable, NextIndex, NextKey;
  }

  lemma UsableIs(db: Db, token: Token, now: nat)
    requires Inv(db) && token in db.sessions && db.sessions[token].conv.channel == WechatKf
    ensures var s := db.sessions[token];
      SessionUsable(db, token, now) <==>
        && s.closedAt == 0 && now < s.expiresAt
        && s.source in db.messages && db.messages[s.source].status in {Processing, Preparing} && UpToDate(db, s)
  {
    SessionFacts(db, token);
    hide Inv;
  }

  /** A queue notice is reserved once, for a live message that waits on the KF channel and has room for it. */
  lemma NoticeIsReserved(db: Db, key: MessageKey, now: nat)
    requires AttemptKey(key, 999) !in db.attempts
    ensures var txn := ReserveQueueNotice(db, key, now);
      var has := exists k :: k in db.attempts && k.source == key && db.attempts[k].origin == QueueNotice;
      && (txn.Commit? <==>
            && key in db.messages && db.messages[key].status == Received && !db.messages[key].deferred
            && db.messages[key].conv.channel == WechatKf && (has || HasRoom(db.attempts, key)))
      && (txn.Commit? && has ==> txn.db == db)
      && (txn.Commit? && !has ==>
            exists k :: NextKey(db.attempts, key, k) && OnlyAttempt(db, txn.db, k)
              && txn.db.attempts[k].status == Pending && txn.db.attempts[k].origin == QueueNotice
              && txn.db.attempts[k].conv == db.messages[key].conv)
  {
    NextIndexIsNext(db.attempts, key);
    RoomIs(db.attempts, key);
    hide NextIndex, HasRoom;
    var n := NextIndex(db.attempts, key, 1000);
    assert NextKey(db.attempts, key, AttemptKey(key, n));
    hide NextKey;
  }

  /** A pending KF send goes on the wire exactly if no other of its conversation is there. */
  lemma PendingIsSent(db: Db, key: AttemptKey, now: nat)
    requires key in db.attempts && db.attempts[key].conv.channel == WechatKf
    ensures var txn := BeginSend(db, key, now);
      && (txn.Commit? <==>
            && db.attempts[key].status == Pending
            && forall k :: k in db.attempts && db.attempts[k].conv == db.attempts[key].conv ==>
                 db.attempts[k].status != Sending)
      && (txn.Commit? ==>
            && OnlyAttempt(db, txn.db, key)
            && txn.db.attempts[key] == db.attempts[key].(status := Sending, updatedAt := now))
  {}

  // ---------------------------------------------------------------- outcomes of sends

  /** Nothing of the message is outstanding, and no later message of the customer still waits for an answer. */
  ghost predicate Done(db: Db, key: MessageKey, now: nat) {
    && key in db.messages && db.messages[key].status in {Ready, Processing, Preparing}
    && (forall k :: k in db.attempts && k.source == key ==>
          db.attempts[k].status != Pending && db.attempts[k].status != Sending)
    && (forall t :: t in db.sessions && db.sessions[t].source == key ==>
          db.sessions[t].closedAt != 0 || db.sessions[t].expiresAt <= now)
    && (forall k :: k in db.messages && db.messages[k].conv == db.messages[key].conv && db.messages[k].customer ==>
          || db.messages[k].inboxSeq <= db.messages[key].inboxSeq
          || db.messages[k].status in {Completed, Absorbed, Ignored, Suppressed})
  }

  lemma LaterCustomerIs(messages: map<MessageKey, Inbound>, key: MessageKey)
    requires key in messages
    ensures LaterCustomer(messages, key) <==>
      !(forall k :: k in messages && messages[k].conv == messages[key].conv && messages[k].customer ==>
          || messages[k].inboxSeq <= messages[key].inboxSeq
          || messages[k].status in {Completed, Absorbed, Ignored, Suppressed})
  {
    forall k | k in messages ensures messages[k].status in ACTIVE_STATUSES
      <==> messages[k].status !in {Completed, Absorbed, Ignored, Suppressed}
    {
      ActiveOrOver(messages[k].status);
    }
  }

  lemma ActiveOrOver(status: InboundStatus)
    ensures status in ACTIVE_STATUSES <==> status !in {Completed, Absorbed, Ignored, Suppressed}
  {
    match status
    case Received =>
    case Processing =>
    case Preparing =>
    case Ready =>
    case Completed =>
    case Steering =>
    case Steered =>
    case Absorbed =>
    case Failed =>
    case Ignored =>
    case Suppressed =>
  }

  /** Settling completes the message exactly when it is done, and touches nothing else. */
  lemma SettlesWhenDone(db: Db, key: MessageKey, now: nat)
    ensures var after := Settle(db, key, now);
      if Done(db, key, now) then
        && OnlyMessage(db, after, key) && after.messages[key].status == Completed && after.messages[key].payload.None?
        && SameMessage(db.messages[key], after.messages[key])
      else after == db
  {
    if key in db.messages { LaterCustomerIs(db.messages, key); }
    hide LaterCustomer;
  }

  /** The attempt has its outcome, and its message has settled. */
  ghost predicate Settled(db: Db, after: Db, key: AttemptKey, a: Attempt, now: nat) {
    after == Settle(db.(attempts := db.attempts[key := a]), key.source, now)
  }

  /** Another attempt of the channel has the id. */
  ghost predicate IdInUse(db: Db, key: AttemptKey, id: string)
    requires key in db.attempts
  {
    exists k :: k in db.attempts && k != key && db.attempts[k].conv.channel == db.attempts[key].conv.channel
      && db.attempts[k].providerMessageId == id
  }

  /** An unknown outcome makes an attempt on the wire uncertain, and a refusal makes it fail, each with its code. */
  lemma LossIsRecorded(db: Db, key: AttemptKey, code: string, now: nat)
    requires key in db.attempts && db.attempts[key].status == Sending
    ensures var txn, a := MarkUncertain(db, key, code, now), db.attempts[key];
      txn.Commit? && Settled(db, txn.db, key, a.(status := Uncertain, providerMessageId := "",
        reason := ProviderError(code), updatedAt := now), now)
    ensures var txn, a := FailSend(db, key, code, now), db.attempts[key];
      txn.Commit? && Settled(db, txn.db, key, a.(status := FailedSend, reason := ProviderError(code), updatedAt := now),
        now)
  {
    hide Settle;
  }

  /** An acknowledgement is taken exactly if it names an id that is not in use. */
  lemma AcceptanceIsTaken(db: Db, key: AttemptKey, id: string, now: nat)
    requires key in db.attempts && db.attempts[key].status == Sending
    ensures CompleteSend(db, key, id, now).Commit? <==> id != "" && !IdInUse(db, key, id)
  {
    hide Settle;
  }

  function Accepts(a: Attempt, id: string, now: nat): Attempt {
    a.(status := Accepted, providerMessageId := id, reason := NoReason, updatedAt := now)
  }

  /** The attempt is accepted then, unless a failure of a KF message was reported for the id before. */
  lemma AcceptanceIsRecorded(db: Db, key: AttemptKey, id: string, now: nat)
    requires key in db.attempts && db.attempts[key].status == Sending && CompleteSend(db, key, id, now).Commit?
    requires db.attempts[key].conv.channel == WeixinIlink || id !in db.failures
    ensures Settled(db, CompleteSend(db, key, id, now).db, key, Accepts(db.attempts[key], id, now), now)
  {
    SettleOnly(db.(attempts := db.attempts[key := Accepts(db.attempts[key], id, now)]), key.source, now);
    hide Settle, IdTaken;
  }

  /** Then it has failed instead, with the type reported, and the report names it. */
  lemma EarlierFailureWins(db: Db, key: AttemptKey, id: string, now: nat)
    requires key in db.attempts && db.attempts[key].status == Sending && CompleteSend(db, key, id, now).Commit?
    requires db.attempts[key].conv.channel == WechatKf && id in db.failures
    ensures var after := CompleteSend(db, key, id, now).db;
      && key in after.attempts && id in after.failures
      && after.attempts[key] == db.attempts[key].(status := FailedSend, providerMessageId := id, reason := MsgSendFail,
           failType := db.failures[id].failType, updatedAt := now)
      && after.failures[id] == db.failures[id].(matched := Some(key), matchedAt := now)
  {
    SettleOnly(db.(attempts := db.attempts[key := Accepts(db.attempts[key], id, now)]), key.source, now);
    hide Settle, IdTaken;
  }

  /** What is no longer on the wire keeps its outcome: the same report changes nothing, another one is refused. */
  lemma OutcomeStays(db: Db, key: AttemptKey, id: string, code: string, now: nat)
    requires key in db.attempts && db.attempts[key].status != Sending
    ensures After(db, MarkUncertain(db, key, code, now)) == db && After(db, FailSend(db, key, code, now)) == db
    ensures db.attempts[key].conv.channel == WeixinIlink ==> After(db, CompleteSend(db, key, id, now)) == db
    ensures MarkUncertain(db, key, code, now).Commit? <==> db.attempts[key].status == Uncertain
    ensures FailSend(db, key, code, now).Commit? <==> db.attempts[key].status == FailedSend
  {}

  /** A reported failure is kept for its id, and no other report is touched. */
  lemma FailureIsKept(db: Db, id: string, failType: int, now: nat)
    ensures var txn := MarkMsgFailed(db, id, failType, now);
      && txn.Commit? && txn.db == db.(attempts := txn.db.attempts, failures := txn.db.failures)
      && (txn.value <==> id != "" && exists k :: AcceptedAs(db.attempts, k, id))
      && (id == "" ==> txn.db == db)
      && (id != "" ==> id in txn.db.failures && txn.db.failures[id].failType == failType)
      && (forall f :: f in db.failures && f != id ==> f in txn.db.failures && txn.db.failures[f] == db.failures[f])
  {
    hide AcceptedAs;
    if id != "" && exists k :: AcceptedAs(db.attempts, k, id) {
      AcceptedFacts(db.attempts, AcceptedKey(db.attempts, id), id);
      hide AcceptedKey;
    }
  }

  lemma AcceptedFacts(attempts: map<AttemptKey, Attempt>, k: AttemptKey, id: string)
    requires AcceptedAs(attempts, k, id)
    ensures k in attempts && attempts[k].providerMessageId == id && attempts[k].conv.channel == WechatKf
    ensures attempts[k].status == Accepted
  {}

  /** A KF attempt revoked by the report. */
  ghost predicate Revoked(a: Attempt, a': Attempt, id: string, failType: int, now: nat) {
    && a.status == Accepted && a.providerMessageId == id && a.conv.channel == WechatKf
    && a' == a.(status := FailedSend, failType := failType, reason := MsgSendFail, updatedAt := now)
  }

  /** It revokes a KF attempt accepted with that id, if there is one, and no other attempt changes. */
  lemma FailureRevokes(db: Db, id: string, failType: int, now: nat)
    ensures var txn := MarkMsgFailed(db, id, failType, now);
      && txn.db.attempts.Keys == db.attempts.Keys
      && (txn.value ==> exists k ::
            && k in db.attempts && Revoked(db.attempts[k], txn.db.attempts[k], id, failType, now)
            && txn.db.attempts == db.attempts[k := txn.db.attempts[k]])
      && (!txn.value ==> txn.db.attempts == db.attempts)
  {
    hide AcceptedAs;
    if id != "" && exists k :: AcceptedAs(db.attempts, k, id) {
      var k := AcceptedKey(db.attempts, id);
      AcceptedFacts(db.attempts, k, id);
      hide AcceptedKey;
      var after := MarkMsgFailed(db, id, failType, now).db;
      assert Revoked(db.attempts[k], after.attempts[k], id, failType, now);
      assert after.attempts == db.attempts[k := after.attempts[k]];
    }
  }

  // ---------------------------------------------------------------- arrivals of the synchronization

  /** The arrival is the first of its page with its key, and the key was not stored before. */
  predicate Arrives(db: Db, arrivals: seq<Arrival>, i: nat) {
    && i < |arrivals| && arrivals[i].key !in db.messages
    && forall j :: 0 <= j < i ==> arrivals[j].key != arrivals[i].key
  }

  /** A page of the synchronization: the cursor moves, and what is new is stored as it came, behind the rest. */
  lemma PageIsIngested(db: Db, account: string, expected: string, next: string, arrivals: seq<Arrival>, now: nat,
    i: nat)
    requires IngestSyncPage(db, account, expected, next, arrivals, now).Commit?
    ensures var after := IngestSyncPage(db, account, expected, next, arrivals, now).db;
      && CursorOf(db, account) == expected && after.cursors == db.cursors[account := next]
      && after == db.(inbox := after.inbox, messages := after.messages, cursors := after.cursors)
      && db.inbox <= after.inbox && db.messages.Keys <= after.messages.Keys
      && (forall k :: k in db.messages ==> after.messages[k] == db.messages[k])
      && (forall k :: k in after.messages && k !in db.messages ==> exists j: nat ::
            Arrives(db, arrivals, j) && arrivals[j].key == k)
      && (Arrives(db, arrivals, i) ==>
            && arrivals[i].key in after.messages
            && var a, m := arrivals[i], after.messages[arrivals[i].key];
               && m.conv == a.conv && m.customer == a.customer && m.deferred == a.deferred
               && m.payload == Some(a.payload)
               && m.status == Received && m.primary.None? && m.turnId == "" && m.inboxSeq > |db.inbox|)
  {
    InsertAllGrows(db, arrivals, now);
    InsertAllKeys(db, arrivals, now);
    if Arrives(db, arrivals, i) { InsertAllWhole(db, arrivals, now, i); }
    var after := InsertAll(db, arrivals, now);
    hide InsertAll, SameIdentity;
    forall k | k in after.messages && k !in db.messages ensures exists j: nat ::
      Arrives(db, arrivals, j) && arrivals[j].key == k {
      var j :| 0 <= j < |arrivals| && arrivals[j].key == k;
      FirstArrival(db, arrivals, j);
    }
  }

  lemma {:induction false} FirstArrival(db: Db, arrivals: seq<Arrival>, i: nat)
    requires i < |arrivals| && arrivals[i].key !in db.messages
    ensures exists j: nat :: Arrives(db, arrivals, j) && arrivals[j].key == arrivals[i].key
  {
    if j: nat :| j < i && arrivals[j].key == arrivals[i].key {
      FirstArrival(db, arrivals, j);
    } else {
      assert Arrives(db, arrivals, i);
    }
  }

  // ---------------------------------------------------------------- evaluation

  /** The evaluation is of a message that waits, in the conversation of the customer. */
  predicate Evaluable(db: Db, e: Evaluation, peer: string) {
    && e.key in db.messages && db.messages[e.key].status == Received
    && db.messages[e.key].conv == Conversation(WechatKf, e.key.account, peer)
    && AttemptKey(e.key, 0) !in db.attempts
  }

  /** The customer's row may change, and only that one. */
  ghost predicate OnlyAuth(db: Db, after: Db, peer: string) {
    peer in after.auths && after.auths == db.auths[peer := after.auths[peer]]
  }

  /**
   The decision tells what the row said before and says now: a repeated message and an authorized customer change
   nothing, and the message authorizes the customer exactly if the row says so afterwards and did not before.
   */
  lemma EvaluationDecides(db: Db, e: Evaluation, peer: string, now: nat)
    requires Evaluable(db, e, peer)
    ensures var txn, row := Evaluate(db, e, peer, now), RowOf(db.auths, peer);
      && txn.Commit?
      && (txn.value == Duplicate <==> row.Some? && row.value.lastMessage == Some(e.key))
      && (txn.value == AlreadyAuthorized <==> row.Some? && row.value.authorized && row.value.lastMessage != Some(e.key))
      && (if txn.value in {Duplicate, AlreadyAuthorized} then txn.db == db
          else OnlyAuth(db, txn.db, peer) && (txn.value == AuthorizedNow <==> txn.db.auths[peer].authorized))
  {
    EvaluateAuths(db, e, peer, now);
    assert Evaluate(db, e, peer, now).Commit?
      && Evaluate(db, e, peer, now).value == Outcome(RowOf(db.auths, peer), e) by {
      hide Step, SetStatus, Welcome, Outcome, RowOf;
    }
    assert Outcome(RowOf(db.auths, peer), e) in {Duplicate, AlreadyAuthorized} ==>
      Evaluate(db, e, peer, now).db == db by {
      hide Step, SetStatus, Welcome, Outcome, RowOf;
    }
    hide Step, Evaluate;
  }

  /**
   If the message already owns its first attempt, an evaluation that would authorize the customer keeps a
   confirmation that is there, and fails if the attempt is anything else.
   */
  lemma NoticeInTheWay(db: Db, e: Evaluation, peer: string, now: nat)
    requires e.key in db.messages && db.messages[e.key].status == Received
    requires db.messages[e.key].conv == Conversation(WechatKf, e.key.account, peer)
    requires AttemptKey(e.key, 0) in db.attempts
    ensures var txn, row := Evaluate(db, e, peer, now), RowOf(db.auths, peer);
      var authorizes := (row.Some? ==> !row.value.authorized && row.value.lastMessage != Some(e.key))
        && Step(row, e).authorized;
      && (txn.Rollback? <==> authorizes && db.attempts[AttemptKey(e.key, 0)].origin != AuthorizationNotice)
      && (txn.Commit? && authorizes ==> txn.value == AuthorizedNow && txn.db.attempts == db.attempts)
  {
    hide Step;
  }

  /** A blocked message is ignored and loses its payload. */
  lemma BlockedIsIgnored(db: Db, e: Evaluation, peer: string, now: nat)
    requires Evaluable(db, e, peer) && Evaluate(db, e, peer, now).Commit? && Evaluate(db, e, peer, now).value == Blocked
    ensures var after := Evaluate(db, e, peer, now).db;
      && after == db.(messages := after.messages, auths := after.auths)
      && after.messages == db.messages[e.key :=
            db.messages[e.key].(status := Ignored, payload := None, updatedAt := now)]
  {
    hide Step, Outcome, RowOf;
  }

  /** A message that authorizes its customer is ready, and the confirmation is on its way. */
  lemma AuthorizedIsWelcome(db: Db, e: Evaluation, peer: string, now: nat)
    requires Evaluable(db, e, peer)
    requires Evaluate(db, e, peer, now).Commit? && Evaluate(db, e, peer, now).value == AuthorizedNow
    ensures var after, notice := Evaluate(db, e, peer, now).db, AttemptKey(e.key, 0);
      && after == db.(messages := after.messages, attempts := after.attempts, auths := after.auths)
      && after.messages == db.messages[e.key := db.messages[e.key].(status := Ready, updatedAt := now)]
      && notice in after.attempts && after.attempts == db.attempts[notice := after.attempts[notice]]
      && after.attempts[notice].status == Pending && after.attempts[notice].origin == AuthorizationNotice
      && after.attempts[notice].conv == db.messages[e.key].conv
  {
    hide Step, Outcome, RowOf;
  }
}
