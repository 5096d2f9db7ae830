/** The transactions of the core store keep the invariant. */
module InboxProofs {
  import opened Basics
  import opened Tables
  import opened Ledger
  import opened Inbox
  import opened Invariants

  // ---------------------------------------------------------------- insertion

  lemma InsertOneKeepsMessages(db: Db, a: Arrival, now: nat)
    requires Inv(db) && a.key.channel == a.conv.channel && a.key.account == a.conv.account && a.key !in db.messages
    ensures MessagesInv(InsertOne(db, a, now))
  {
    var after := InsertOne(db, a, now);
    forall k | k in after.messages ensures FlatAt(after.messages, k) {
      if k != a.key { assert FlatAt(db.messages, k); }
    }
    forall k | k in db.attempts && k.source in after.messages
      ensures Owns(after.messages[k.source].status, db.attempts[k])
    {
      assert AttemptOk(db.messages, db.windows, k, db.attempts[k]);
    }
  }

  lemma InsertOneKeepsLinks(db: Db, a: Arrival, now: nat)
    requires Inv(db) && a.key !in db.messages
    ensures LinksInv(InsertOne(db, a, now))
  {
    var after := InsertOne(db, a, now);
    forall k | k in db.attempts ensures AttemptOk(after.messages, db.windows, k, db.attempts[k]) {
      assert AttemptOk(db.messages, db.windows, k, db.attempts[k]);
    }
    forall t | t in db.sessions ensures SessionOk(after.messages, db.windows, db.sessions[t]) {
      assert SessionOk(db.messages, db.windows, db.sessions[t]);
    }
    forall w | w in db.windows ensures WindowOk(db.accounts, after.messages, db.nextWindow, w, db.windows[w]) {
      assert WindowOk(db.accounts, db.messages, db.nextWindow, w, db.windows[w]);
    }
  }

  lemma InsertOneKeeps(db: Db, a: Arrival, now: nat)
    requires Inv(db) && a.key.channel == a.conv.channel && a.key.account == a.conv.account
    ensures Inv(InsertOne(db, a, now))
  {
    if a.key !in db.messages {
      InsertOneKeepsMessages(db, a, now);
      InsertOneKeepsLinks(db, a, now);
    }
  }

  ghost predicate KeysMatch(arrivals: seq<Arrival>) {
    forall i :: 0 <= i < |arrivals| ==>
      arrivals[i].key.channel == arrivals[i].conv.channel && arrivals[i].key.account == arrivals[i].conv.account
  }

  lemma {:induction false} InsertAllKeeps(db: Db, arrivals: seq<Arrival>, now: nat)
    requires Inv(db) && KeysMatch(arrivals)
    ensures Inv(InsertAll(db, arrivals, now))
  {
    if arrivals != [] {
      InsertAllKeeps(db, arrivals[..|arrivals| - 1], now);
      InsertOneKeeps(InsertAll(db, arrivals[..|arrivals| - 1], now), arrivals[|arrivals| - 1], now);
    }
  }

  lemma IngestKeeps(db: Db, account: string, expected: string, next: string, arrivals: seq<Arrival>, now: nat)
    requires Inv(db)
    ensures Inv(After(db, IngestSyncPage(db, account, expected, next, arrivals, now)))
  {
    if IngestSyncPage(db, account, expected, next, arrivals, now).Commit? {
      forall i | 0 <= i < |arrivals|
        ensures arrivals[i].key.channel == arrivals[i].conv.channel
        ensures arrivals[i].key.account == arrivals[i].conv.account
      {
        assert arrivals[i] in arrivals;
      }
      InsertAllKeeps(db, arrivals, now);
    }
  }

  lemma PromoteDeferredKeeps(db: Db, conv: Conversation, now: nat)
    requires Inv(db)
    ensures Inv(After(db, PromoteDeferred(db, conv, now)))
  {
    var after := PromoteDeferred(db, conv, now).db.messages;
    forall k | k in after ensures FlatAt(after, k) { assert FlatAt(db.messages, k); }
    RewriteKeeps(db, after);
  }

  // ---------------------------------------------------------------- single message transitions

  /** Rewriting one message that is not in steering and leads no group that the change would break. */
  lemma SetOneKeeps(db: Db, key: MessageKey, m: Inbound)
    requires Inv(db) && key in db.messages
    requires m.conv == db.messages[key].conv && m.inboxSeq == db.messages[key].inboxSeq
    requires FlatAt(db.messages[key := m], key)
    requires m.status == Received || InSteering(m) ==>
      db.messages[key].status == Received || InSteering(db.messages[key])
    requires forall k :: k in db.attempts && k.source == key ==> Owns(m.status, db.attempts[k])
    ensures Inv(db.(messages := db.messages[key := m]))
  {
    var after := db.messages[key := m];
    forall k | k in after ensures FlatAt(after, k) {
      assert FlatAt(db.messages, k);
    }
    RewriteKeeps(db, after);
  }

  lemma ClaimKeeps(db: Db, key: MessageKey, now: nat)
    requires Inv(db)
    ensures Inv(After(db, Claim(db, key, now)))
  {
    var txn := Claim(db, key, now);
    if txn.Commit? && txn.db != db {
      assert FlatAt(db.messages, key);
      SetOneKeeps(db, key, txn.db.messages[key]);
    }
  }

  lemma MarkPreparingKeeps(db: Db, key: MessageKey, turnId: string, now: nat)
    requires Inv(db)
    ensures Inv(After(db, MarkPreparing(db, key, turnId, now)))
  {
    var txn := MarkPreparing(db, key, turnId, now);
    if txn.Commit? {
      assert FlatAt(db.messages, key);
      SetOneKeeps(db, key, txn.db.messages[key]);
    }
  }

  lemma MarkIgnoredKeeps(db: Db, key: MessageKey, now: nat)
    requires Inv(db)
    ensures Inv(After(db, MarkIgnored(db, key, now)))
  {
    var txn := MarkIgnored(db, key, now);
    if txn.Commit? {
      assert FlatAt(db.messages, key);
      SetOneKeeps(db, key, txn.db.messages[key]);
    }
  }

  lemma MarkCompletedKeeps(db: Db, key: MessageKey, now: nat)
    requires Inv(db) && (key in db.messages ==> db.messages[key].status == Received)
    ensures Inv(After(db, MarkCompleted(db, key, now)))
  {
    var txn := MarkCompleted(db, key, now);
    if txn.Commit? {
      assert FlatAt(db.messages, key);
      SetOneKeeps(db, key, txn.db.messages[key]);
    }
  }

  // ---------------------------------------------------------------- steering groups

  lemma BeginSteeringKeeps(db: Db, key: MessageKey, primary: MessageKey, now: nat)
    requires Inv(db)
    ensures Inv(After(db, BeginSteering(db, key, primary, now)))
  {
    var txn := BeginSteering(db, key, primary, now);
    if txn.Commit? { SetOneKeeps(db, key, txn.db.messages[key]); }
  }

  lemma ConfirmSteeredKeeps(db: Db, key: MessageKey, turnId: string, now: nat)
    requires Inv(db)
    ensures Inv(After(db, ConfirmSteered(db, key, turnId, now)))
  {
    var txn := ConfirmSteered(db, key, turnId, now);
    if txn.Commit? {
      assert FlatAt(db.messages, key);
      SetOneKeeps(db, key, txn.db.messages[key]);
    }
  }

  lemma RequeueSteeringKeeps(db: Db, key: MessageKey, primary: MessageKey, now: nat)
    requires Inv(db)
    ensures Inv(After(db, RequeueSteering(db, key, primary, now)))
  {
    var txn := RequeueSteering(db, key, primary, now);
    if txn.Commit? { SetOneKeeps(db, key, txn.db.messages[key]); }
  }

  lemma FailInboundKeeps(db: Db, key: MessageKey, now: nat)
    requires Inv(db)
    ensures Inv(After(db, FailInbound(db, key, now)))
  {
    var txn := FailInbound(db, key, now);
    if txn.Commit? && txn.value {
      var after := txn.db.messages;
      assert FlatAt(db.messages, key);
      forall k | k in after ensures FlatAt(after, k) { assert FlatAt(db.messages, k); }
      RewriteKeeps(db, after);
    }
  }

  /** The rows of a deferred group. */
  function DeferredRows(messages: map<MessageKey, Inbound>, key: MessageKey, now: nat): map<MessageKey, Inbound> {
    map k | k in messages :: var m := messages[k];
      if InGroup(k, m, key) && m.status in {Failed, Processing, Preparing, Steering, Steered}
      then Requeued(m, now).(deferred := true) else m
  }

  lemma DeferShape(db: Db, key: MessageKey, now: nat)
    ensures var txn := DeferActive(db, key, now);
      txn.Commit? && (txn.db == db || (
        && txn.db == db.(messages := DeferredRows(db.messages, key, now),
              sessions := CloseMessageSessions(db.sessions, key, now))
        && forall k :: k in db.attempts && k.source == key ==> db.attempts[k].origin == AgentApproval))
  {
    hide CloseMessageSessions, InGroup;
  }

  lemma DeferFlat(messages: map<MessageKey, Inbound>, key: MessageKey, now: nat, k: MessageKey)
    requires GroupsFlat(messages) && k in messages
    ensures FlatAt(DeferredRows(messages, key, now), k)
  {
    assert FlatAt(messages, k);
  }

  lemma DeferOwns(db: Db, key: MessageKey, now: nat, k: AttemptKey)
    requires Inv(db) && k in db.attempts && (k.source == key ==> db.attempts[k].origin == AgentApproval)
    ensures Owns(DeferredRows(db.messages, key, now)[k.source].status, db.attempts[k])
  {
    AttemptFacts(db, k);
    MessageFacts(db, k.source);
    hide Inv;
  }

  lemma DeferredKeeps(db: Db, key: MessageKey, now: nat)
    requires Inv(db) && forall k :: k in db.attempts && k.source == key ==> db.attempts[k].origin == AgentApproval
    ensures Inv(db.(messages := DeferredRows(db.messages, key, now)))
  {
    var after := DeferredRows(db.messages, key, now);
    assert SameRows(db.messages, after);
    assert GroupsFlat(db.messages);
    hide Inv;
    forall k | k in after ensures FlatAt(after, k) { DeferFlat(db.messages, key, now, k); }
    forall k | k in db.attempts && k.source in after ensures Owns(after[k.source].status, db.attempts[k]) {
      DeferOwns(db, key, now, k);
    }
    hide DeferredRows, FlatAt, Owns;
    RewriteKeeps(db, after);
  }

  lemma CloseMessageKeeps(db: Db, key: MessageKey, now: nat)
    requires Inv(db)
    ensures Inv(db.(sessions := CloseMessageSessions(db.sessions, key, now)))
  {
    hide Inv;
    FewerSessionsKeeps(db, CloseMessageSessions(db.sessions, key, now));
  }

  lemma DeferActiveKeeps(db: Db, key: MessageKey, now: nat)
    requires Inv(db)
    ensures Inv(After(db, DeferActive(db, key, now)))
  {
    hide Inv, DeferActive, DeferredRows, CloseMessageSessions;
    DeferShape(db, key, now);
    if DeferActive(db, key, now).db != db {
      DeferredKeeps(db, key, now);
      CloseMessageKeeps(db.(messages := DeferredRows(db.messages, key, now)), key, now);
    }
  }

  lemma FailPendingProgresses(attempts: map<AttemptKey, Attempt>, chosen: set<AttemptKey>, reason: Reason, now: nat,
                              messages: map<MessageKey, Inbound>, windows: map<WindowId, Window>)
    requires AttemptsOk(messages, windows, attempts)
    ensures AllProgress(attempts, FailPending(attempts, chosen, reason, now))
  {
    forall k | k in attempts ensures Progress(attempts[k], FailPending(attempts, chosen, reason, now)[k]) {
      assert AttemptOk(messages, windows, k, attempts[k]);
    }
  }

  lemma SuppressKeeps(db: Db, key: MessageKey, now: nat)
    requires Inv(db)
    ensures Inv(After(db, Suppress(db, key, now)))
  {
    var after := Suppress(db, key, now).db;
    FailPendingProgresses(db.attempts, MessageAttempts(db.attempts, key), SuppressedGroup, now, db.messages,
      db.windows);
    ProgressKeeps(db, after.attempts);
    var mid := db.(attempts := after.attempts);
    forall k | k in after.messages ensures FlatAt(after.messages, k) { assert FlatAt(db.messages, k); }
    forall k | k in after.attempts && k.source in after.messages
      ensures Owns(after.messages[k.source].status, after.attempts[k])
    {
      assert FlatAt(db.messages, k.source);
      assert Owns(mid.messages[k.source].status, mid.attempts[k]);
    }
    RewriteKeeps(mid, after.messages);
  }

  // ---------------------------------------------------------------- Agent sessions

  lemma CloseSessionKeeps(db: Db, token: Token, now: nat)
    requires Inv(db)
    ensures Inv(After(db, CloseSession(db, token, now)))
  {
    FewerSessionsKeeps(db, CloseSessions(db.sessions, {token}, now));
  }

  lemma CloseSessionsOfKeeps(db: Db, key: MessageKey, now: nat)
    requires Inv(db)
    ensures Inv(After(db, CloseSessionsOf(db, key, now)))
  {
    FewerSessionsKeeps(db, CloseMessageSessions(db.sessions, key, now));
  }

  lemma CreateSessionKeeps(db: Db, token: Token, key: MessageKey, boundary: MessageKey, ttl: nat, now: nat)
    requires Inv(db) && token !in db.sessions
    ensures Inv(After(db, CreateSession(db, token, key, boundary, ttl, now)))
  {
    var txn := CreateSession(db, token, key, boundary, ttl, now);
    if txn.Commit? {
      forall t | t in txn.db.sessions ensures SessionOk(db.messages, db.windows, txn.db.sessions[t]) {
        if t != token { assert SessionOk(db.messages, db.windows, db.sessions[t]); }
      }
    }
  }

  // ---------------------------------------------------------------- WeChat KF sends

  lemma KfAttemptKeepsQuota(db: Db, k: AttemptKey, a: Attempt)
    requires QuotaOk(db.windows, db.attempts, db.sent) && a.window.None?
    requires k in db.attempts ==> db.attempts[k].window.None?
    ensures QuotaOk(db.windows, db.attempts[k := a], db.sent)
  {
    var after := db.attempts[k := a];
    forall w | w in db.windows
      ensures QuotaAt(db.windows[w], |PendingOf(after, w)|, |ChargedOf(after, w)|, db.sent[w])
    {
      assert PendingOf(after, w) == PendingOf(db.attempts, w);
      assert ChargedOf(after, w) == ChargedOf(db.attempts, w);
      assert QuotaAt(db.windows[w], |PendingOf(db.attempts, w)|, |ChargedOf(db.attempts, w)|, db.sent[w]);
    }
  }

  lemma KfAttemptKeepsOrder(db: Db, k: AttemptKey, a: Attempt)
    requires OneSending(db.attempts) && IndicesOk(db.windows, db.attempts) && a.window.None?
    requires a.conv.channel == WechatKf
    requires k in db.attempts ==> db.attempts[k].window.None?
    ensures OneSending(db.attempts[k := a]) && IndicesOk(db.windows, db.attempts[k := a])
  {
    var after := db.attempts[k := a];
    assert forall j, conv :: IlinkSending(after, j, conv) ==> IlinkSending(db.attempts, j, conv);
    assert forall j, w :: Invariants.Indexed(after, j, w) ==> Invariants.Indexed(db.attempts, j, w) && j != k;
  }

  /** Inserting or changing an attempt that holds no quota of a window. */
  lemma KfAttemptKeeps(db: Db, k: AttemptKey, a: Attempt)
    requires Inv(db) && a.conv.channel == WechatKf
    requires AttemptOk(db.messages, db.windows, k, a) && Owns(db.messages[k.source].status, a)
    requires k in db.attempts ==> db.attempts[k].window.None?
    ensures Inv(db.(attempts := db.attempts[k := a]))
  {
    KfAttemptKeepsQuota(db, k, a);
    KfAttemptKeepsOrder(db, k, a);
  }

  lemma ReserveAgentSendKeeps(db: Db, token: Token, now: nat)
    requires Inv(db)
    ensures Inv(After(db, ReserveAgentSend(db, token, now)))
  {
    var txn := ReserveAgentSend(db, token, now);
    if txn.Commit? { KfAttemptKeeps(db, txn.value, txn.db.attempts[txn.value]); }
  }

  lemma ReserveQueueNoticeKeeps(db: Db, key: MessageKey, now: nat)
    requires Inv(db)
    ensures Inv(After(db, ReserveQueueNotice(db, key, now)))
  {
    var txn := ReserveQueueNotice(db, key, now);
    if txn.Commit? && txn.db != db {
      var k := AttemptKey(key, NextIndex(db.attempts, key, MAX_ATTEMPTS));
      KfAttemptKeeps(db, k, txn.db.attempts[k]);
    }
  }

  lemma BeginSendKeeps(db: Db, key: AttemptKey, now: nat)
    requires Inv(db)
    ensures Inv(After(db, BeginSend(db, key, now)))
  {
    var txn := BeginSend(db, key, now);
    if txn.Commit? {
      assert AttemptOk(db.messages, db.windows, key, db.attempts[key]);
      KfAttemptKeeps(db, key, txn.db.attempts[key]);
    }
  }

  // ---------------------------------------------------------------- finalization and outcomes

  lemma SettleKeeps(db: Db, key: MessageKey, now: nat)
    requires Inv(db)
    ensures Inv(Settle(db, key, now))
  {
    if Settle(db, key, now) != db {
      assert FlatAt(db.messages, key);
      forall k | k in db.attempts && k.source == key ensures Owns(Completed, db.attempts[k]) {
        assert Owns(db.messages[key].status, db.attempts[k]);
      }
      SetOneKeeps(db, key, Settle(db, key, now).messages[key]);
    }
  }

  /** One attempt progresses. */
  lemma ProgressOneKeeps(db: Db, key: AttemptKey, a: Attempt)
    requires Inv(db) && key in db.attempts && Progress(db.attempts[key], a)
    ensures Inv(db.(attempts := db.attempts[key := a]))
  {
    ProgressKeeps(db, db.attempts[key := a]);
  }

  lemma FinishSendingKeeps(db: Db, key: AttemptKey, status: SendStatus, providerId: string, reason: Reason, now: nat)
    requires Inv(db) && status in {Accepted, Uncertain}
    ensures Inv(After(db, FinishSending(db, key, status, providerId, reason, now)))
  {
    var txn := FinishSending(db, key, status, providerId, reason, now);
    if txn.Commit? && txn.db != db {
      var a := db.attempts[key].(status := status, providerMessageId := providerId, reason := reason, updatedAt := now);
      assert AttemptOk(db.messages, db.windows, key, db.attempts[key]);
      ProgressOneKeeps(db, key, a);
      SettleKeeps(db.(attempts := db.attempts[key := a]), key.source, now);
    }
  }

  lemma FailSendKeeps(db: Db, key: AttemptKey, code: string, now: nat)
    requires Inv(db)
    ensures Inv(After(db, FailSend(db, key, code, now)))
  {
    var txn := FailSend(db, key, code, now);
    if txn.Commit? && txn.db != db {
      var a := db.attempts[key].(status := FailedSend, reason := ProviderError(code), updatedAt := now);
      assert AttemptOk(db.messages, db.windows, key, db.attempts[key]);
      ProgressOneKeeps(db, key, a);
      SettleKeeps(db.(attempts := db.attempts[key := a]), key.source, now);
    }
  }

  /** A delivery failure concerns a WeChat KF attempt, which holds no quota of a window. */
  lemma ApplyFailureKeeps(db: Db, key: AttemptKey, failType: int, now: nat)
    requires Inv(db) && key in db.attempts && db.attempts[key].conv.channel == WechatKf
    ensures Inv(ApplyFailure(db, key, failType, now))
  {
    var after := ApplyFailure(db, key, failType, now);
    assert AttemptOk(db.messages, db.windows, key, db.attempts[key]);
    assert Owns(db.messages[key.source].status, db.attempts[key]);
    KfAttemptKeeps(db, key, after.attempts[key]);
  }

  lemma CompleteSendKeeps(db: Db, key: AttemptKey, providerId: string, now: nat)
    requires Inv(db)
    ensures Inv(After(db, CompleteSend(db, key, providerId, now)))
  {
    var txn := CompleteSend(db, key, providerId, now);
    if txn.Commit? {
      var accepted := FinishSending(db, key, Accepted, providerId, NoReason, now);
      FinishSendingKeeps(db, key, Accepted, providerId, NoReason, now);
      if txn != accepted {
        ApplyFailureKeeps(accepted.db, key, accepted.db.failures[providerId].failType, now);
      }
    }
  }

  lemma MarkMsgFailedKeeps(db: Db, providerId: string, failType: int, now: nat)
    requires Inv(db)
    ensures Inv(After(db, MarkMsgFailed(db, providerId, failType, now)))
  {
    OtherTablesKeep(db, Observe(db, providerId, failType, now));
    if exists k :: AcceptedAs(db.attempts, k, providerId) {
      ApplyFailureKeeps(Observe(db, providerId, failType, now), AcceptedKey(db.attempts, providerId), failType, now);
    }
  }

  lemma FinalizeKeepsGroups(db: Db, key: MessageKey, steered: set<MessageKey>, reported: seq<AttemptKey>, now: nat)
    requires Inv(db) && Finalize(db, key, steered, reported, now).Commit?
    ensures GroupsFlat(Finalize(db, key, steered, reported, now).db.messages)
  {
    var after := Finalize(db, key, steered, reported, now).db.messages;
    FinalizeShape(db, key, steered, reported, now);
    assert GroupsFlat(db.messages);
    hide Inv, Finalize;
    FinalizedFlat(db.messages, after, key, steered, now);
  }

  /** The messages of a finalized execution. */
  ghost predicate FinalizesTo(before: map<MessageKey, Inbound>, after: map<MessageKey, Inbound>, key: MessageKey,
                              steered: set<MessageKey>, now: nat) {
    && key in before && after.Keys == before.Keys
    && before[key].status in {Processing, Preparing, Ready, Completed}
    && (forall k :: k in steered ==> k in before && before[k].status == Steered && before[k].primary == Some(key))
    && forall k :: k in before ==>
         after[k] == (if k == key then before[k].(status := Completed, payload := None, updatedAt := now)
                      else if k in steered then before[k].(status := Absorbed, payload := None, updatedAt := now)
                      else before[k])
  }

  lemma FinalizeShape(db: Db, key: MessageKey, steered: set<MessageKey>, reported: seq<AttemptKey>, now: nat)
    requires Finalize(db, key, steered, reported, now).Commit?
    ensures FinalizesTo(db.messages, Finalize(db, key, steered, reported, now).db.messages, key, steered, now)
  {
    assert forall k :: k in steered ==> SteeredBy(db, k, key);
    hide WithinBudget, ToolAttempts;
  }

  lemma FinalizedFlat(before: map<MessageKey, Inbound>, after: map<MessageKey, Inbound>, key: MessageKey,
                      steered: set<MessageKey>, now: nat)
    requires GroupsFlat(before) && FinalizesTo(before, after, key, steered, now)
    ensures GroupsFlat(after)
  {
    forall k | k in after ensures FlatAt(after, k) {
      assert FlatAt(before, k);
    }
  }

  lemma FinalizeKeepsAgent(db: Db, key: MessageKey, steered: set<MessageKey>, reported: seq<AttemptKey>, now: nat)
    requires Inv(db) && Finalize(db, key, steered, reported, now).Commit?
    ensures AgentOk(Finalize(db, key, steered, reported, now).db.messages, db.attempts)
  {
    var after := Finalize(db, key, steered, reported, now).db.messages;
    forall k | k in db.attempts && k.source in after ensures Owns(after[k.source].status, db.attempts[k]) {
      assert k.source in steered ==> SteeredBy(db, k.source, key);
      assert k.source == key && db.attempts[k].origin == McpTool ==> k in ToolAttempts(db.attempts, key);
      assert Owns(db.messages[k.source].status, db.attempts[k]);
    }
  }

  lemma FinalizeKeeps(db: Db, key: MessageKey, steered: set<MessageKey>, reported: seq<AttemptKey>, now: nat)
    requires Inv(db)
    ensures Inv(After(db, Finalize(db, key, steered, reported, now)))
  {
    var txn := Finalize(db, key, steered, reported, now);
    if txn.Commit? {
      FinalizeKeepsGroups(db, key, steered, reported, now);
      FinalizeKeepsAgent(db, key, steered, reported, now);
      RewriteKeeps(db, txn.db.messages);
      FewerSessionsKeeps(db.(messages := txn.db.messages), txn.db.sessions);
    }
  }

  // ---------------------------------------------------------------- recovery and retention

  lemma {:induction false} SettleAllKeeps(db: Db, keys: seq<MessageKey>, now: nat)
    requires Inv(db)
    ensures Inv(SettleAll(db, keys, now))
    decreases |keys|
  {
    if keys != [] {
      SettleKeeps(db, keys[0], now);
      SettleAllKeeps(Settle(db, keys[0], now), keys[1..], now);
    }
  }

  lemma InterruptedProgress(db: Db, now: nat)
    requires Inv(db)
    ensures AllProgress(db.attempts, Interrupted(db, now).attempts)
  {
    hide Inv;
    var after := Interrupted(db, now);
    forall k | k in after.attempts ensures Progress(db.attempts[k], after.attempts[k]) { AttemptFacts(db, k); }
  }

  lemma InterruptedKeeps(db: Db, now: nat)
    requires Inv(db)
    ensures Inv(Interrupted(db, now))
  {
    hide Inv;
    var after := Interrupted(db, now);
    InterruptedProgress(db, now);
    FewerSessionsKeeps(db, after.sessions);
    hide AllProgress;
    ProgressKeeps(db.(sessions := after.sessions), after.attempts);
  }

  lemma RequeueUnsentKeeps(db: Db, now: nat)
    requires Inv(db)
    ensures Inv(RequeueUnsent(db, now))
  {
    var after := RequeueUnsent(db, now).messages;
    forall k | k in after ensures FlatAt(after, k) { assert FlatAt(db.messages, k); }
    forall k | k in db.attempts && k.source in after ensures Owns(after[k.source].status, db.attempts[k]) {
      assert Owns(db.messages[k.source].status, db.attempts[k]);
    }
    RewriteKeeps(db, after);
  }

  lemma RecoverStartupKeeps(db: Db, sources: seq<MessageKey>, now: nat)
    requires Inv(db) && (set k | k in sources) == StartupSources(Interrupted(db, now))
    ensures Inv(After(db, RecoverStartup(db, sources, now)))
  {
    InterruptedKeeps(db, now);
    SettleAllKeeps(Interrupted(db, now), sources, now);
    RequeueUnsentKeeps(SettleAll(Interrupted(db, now), sources, now), now);
  }

  // ---------------------------------------------------------------- what a session, steering and deferral mean

  /** From `now` on, no other session of the conversation is live. */
  ghost predicate OnlyLive(sessions: map<Token, Session>, conv: Conversation, token: Token, now: nat) {
    forall t, later :: t in sessions && sessions[t].conv == conv && later >= now && Live(later, sessions[t]) ==>
      t == token
  }

  /**
   A new session is the only live one of its conversation, lives for a second to an hour, and is bound to the
   open window of its boundary; the sessions of other conversations stay as they are.
   */
  lemma OneLiveSession(db: Db, token: Token, key: MessageKey, boundary: MessageKey, ttl: nat, now: nat)
    requires token !in db.sessions && now > 0 && CreateSession(db, token, key, boundary, ttl, now).Commit?
    ensures var sessions, conv := CreateSession(db, token, key, boundary, ttl, now).db.sessions, db.messages[key].conv;
      && OnlyLive(sessions, conv, token, now)
      && token in sessions && Live(now, sessions[token])
      && now + 1000 <= sessions[token].expiresAt <= now + 60 * 60 * 1000
      && (conv.channel == WeixinIlink ==>
            var w := sessions[token].window;
            && w.Some? && w.value in db.windows && db.windows[w.value].source == boundary
            && db.windows[w.value].state == Open && now < db.windows[w.value].expiresAt)
      && (forall t :: t in db.sessions && db.sessions[t].conv != conv ==>
            t in sessions && sessions[t] == db.sessions[t])
  {
    hide Inv;
  }

  lemma LiveSessionIsAlone(db: Db, token: Token, key: MessageKey, boundary: MessageKey, ttl: nat, now: nat)
    requires token !in db.sessions && now > 0 && CreateSession(db, token, key, boundary, ttl, now).Commit?
    ensures CreateSession(db, token, key, boundary, ttl, now).db.messages == db.messages && key in db.messages
    ensures OnlyLive(CreateSession(db, token, key, boundary, ttl, now).db.sessions, db.messages[key].conv, token, now)
  {
    OneLiveSession(db, token, key, boundary, ttl, now);
    hide OnlyLive, CreateSession;
  }

  /** Taking steering back restores the message: it waits again, as before but for its turn and time. */
  lemma SteeringUndone(db: Db, key: MessageKey, primary: MessageKey, now: nat, later: nat)
    requires Inv(db) && BeginSteering(db, key, primary, now).Commit?
    ensures var steering := BeginSteering(db, key, primary, now).db;
      RequeueSteering(steering, key, primary, later)
        == Commit(db.(messages := db.messages[key := db.messages[key].(turnId := "", updatedAt := later)]), ())
  {
    MessageFacts(db, key);
    hide Inv;
    var steering := BeginSteering(db, key, primary, now).db;
    var m := db.messages[key].(turnId := "", updatedAt := later);
    assert Requeued(steering.messages[key], later) == m;
    assert steering.messages[key := m] == db.messages[key := m];
  }

  lemma DeferRequeues(db: Db, key: MessageKey, now: nat, k: MessageKey)
    requires now > 0 && DeferActive(db, key, now) == Commit(DeferActive(db, key, now).db, true)
    requires k in db.messages && InGroup(k, db.messages[k], key)
    requires db.messages[k].status in {Failed, Processing, Preparing, Steering, Steered}
    ensures var after := DeferActive(db, key, now).db;
      && k in after.messages && after.messages[k] == Requeued(db.messages[k], now).(deferred := true)
      && (forall t :: t in after.sessions && after.sessions[t].source == key ==> !Live(now, after.sessions[t]))
  {
    hide InGroup, Requeued;
  }

  /** A deferred group waits as a whole, for later, and none of it owns an attempt of the tools or a live session. */
  lemma DeferredGroup(db: Db, key: MessageKey, now: nat, k: MessageKey)
    requires Inv(db) && now > 0 && DeferActive(db, key, now) == Commit(DeferActive(db, key, now).db, true)
    requires k in db.messages && InGroup(k, db.messages[k], key)
    requires db.messages[k].status in {Failed, Processing, Preparing, Steering, Steered}
    ensures var after := DeferActive(db, key, now).db;
      && k in after.messages && after.messages[k].status == Received && after.messages[k].deferred
      && after.messages[k].primary.None? && after.messages[k].turnId == ""
      && (forall a :: a in after.attempts && a.source == k ==> after.attempts[a].origin != McpTool)
      && (forall t :: t in after.sessions && after.sessions[t].source == key ==> !Live(now, after.sessions[t]))
  {
    DeferRequeues(db, key, now, k);
    DeferActiveKeeps(db, key, now);
    hide Inv, DeferActive;
    var after := DeferActive(db, key, now).db;
    forall a | a in after.attempts && a.source == k
      ensures after.attempts[a].origin != McpTool { AttemptFacts(after, a); }
  }
}
