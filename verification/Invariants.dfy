/** What every committed transaction keeps true of the tables. */
module Invariants {
  import opened Basics
  import opened Tables
  import opened Ledger
  import opened Inbox

  // ---------------------------------------------------------------- messages

  /** Row numbers are handed out once: the n-th insertion is row n. */
  ghost predicate RowsOk(inbox: seq<MessageKey>, messages: map<MessageKey, Inbound>) {
    forall k :: k in messages ==>
      && 0 < messages[k].inboxSeq <= |inbox|
      && inbox[messages[k].inboxSeq - 1] == k
      && messages[k].conv.channel == k.channel
      && messages[k].conv.account == k.account
  }

  /** Statuses of messages that stand on their own. */
  ghost predicate Primaryless(status: InboundStatus) {
    status in {Received, Processing, Preparing, Failed, Ready}
  }

  /** Steering groups are one level deep. */
  ghost predicate FlatAt(messages: map<MessageKey, Inbound>, k: MessageKey)
    requires k in messages
  {
    var m := messages[k];
    && (Primaryless(m.status) ==> m.primary.None?)
    && (InSteering(m) ==>
          && m.primary.Some?
          && m.primary.value in messages
          && messages[m.primary.value].conv == m.conv
          && messages[m.primary.value].status != Received
          && !InSteering(messages[m.primary.value]))
  }

  ghost predicate GroupsFlat(messages: map<MessageKey, Inbound>) {
    forall k :: k in messages ==> FlatAt(messages, k)
  }

  // ---------------------------------------------------------------- attempts

  ghost predicate AttemptOk(
    messages: map<MessageKey, Inbound>, windows: map<WindowId, Window>, k: AttemptKey, a: Attempt)
  {
    && k.index < (if a.conv.channel == WechatKf then 5 else MAX_ATTEMPTS)
    && k.source in messages
    && messages[k.source].conv == a.conv
    && (a.conv.channel == WeixinIlink <==> a.window.Some?)
    && (a.window.Some? ==> a.window.value in windows && windows[a.window.value].conv == a.conv)
    && (a.status in {Pending, Sending} ==> a.reason == NoReason)
    && (a.status in {Pending, Sending} && a.window.Some? ==> a.issued)
    && (a.issued ==> a.window.Some?)
  }

  ghost predicate AttemptsOk(
    messages: map<MessageKey, Inbound>, windows: map<WindowId, Window>, attempts: map<AttemptKey, Attempt>)
  {
    forall k :: k in attempts ==> AttemptOk(messages, windows, k, attempts[k])
  }

  /** Which attempts made through the tools a message may own in a given status. */
  ghost predicate Owns(status: InboundStatus, a: Attempt) {
    a.origin == McpTool ==>
      && status in {Processing, Preparing, Failed, Completed, Suppressed}
      && (a.status == Pending ==> status in {Processing, Preparing, Failed})
  }

  ghost predicate AgentOk(messages: map<MessageKey, Inbound>, attempts: map<AttemptKey, Attempt>) {
    forall k :: k in attempts && k.source in messages ==> Owns(messages[k.source].status, attempts[k])
  }

  ghost predicate IlinkSending(attempts: map<AttemptKey, Attempt>, k: AttemptKey, conv: Conversation) {
    k in attempts && attempts[k].status == Sending && attempts[k].conv == conv && conv.channel == WeixinIlink
  }

  /** At most one iLink attempt of a conversation is on the wire. */
  ghost predicate OneSending(attempts: map<AttemptKey, Attempt>) {
    forall j, k, conv :: IlinkSending(attempts, j, conv) && IlinkSending(attempts, k, conv) ==> j == k
  }

  // ---------------------------------------------------------------- windows

  ghost predicate WindowOk(
    accounts: map<string, Account>, messages: map<MessageKey, Inbound>, nextWindow: nat, id: WindowId, w: Window)
  {
    && id < nextWindow
    && w.conv.channel == WeixinIlink
    && w.conv.account in accounts
    && w.source in messages
    && messages[w.source].conv == w.conv
    && messages[w.source].inboxSeq == w.sourceSeq
    && (w.state == Open ==> accounts[w.conv.account].generation == w.generation)
  }

  ghost predicate WindowsOk(
    accounts: map<string, Account>, messages: map<MessageKey, Inbound>, windows: map<WindowId, Window>, nextWindow: nat)
  {
    forall w :: w in windows ==> WindowOk(accounts, messages, nextWindow, w, windows[w])
  }

  /** One window per source message, one open window per conversation. */
  ghost predicate UniqueWindows(windows: map<WindowId, Window>) {
    forall v, w :: v in windows && w in windows
      && (windows[v].source == windows[w].source
          || (windows[v].conv == windows[w].conv && windows[v].state == Open && windows[w].state == Open))
      ==> v == w
  }

  ghost predicate SecretsOk(windows: map<WindowId, Window>, secrets: set<WindowId>) {
    forall w :: w in secrets ==> w in windows && windows[w].state == Open
  }

  /** Attempts of a window that `finalizeAgentExecution` counts against its budget. */
  function ChargedOf(attempts: map<AttemptKey, Attempt>, w: WindowId): set<AttemptKey> {
    set k | k in attempts && attempts[k].window == Some(w) && Charged(attempts[k])
  }

  ghost predicate QuotaAt(w: Window, pending: nat, charged: nat, sent: nat) {
    && pending <= w.reserved
    && w.reserved + w.transmitted <= MAX_SENDS
    && w.transmitted == sent
    && charged <= MAX_SENDS
    && (w.state == Open ==> charged <= w.reserved + w.transmitted)
    && (w.state != Open ==> w.reserved == 0)
  }

  /** Conservation of quota: the counters of a window bound what its attempts hold. */
  ghost predicate QuotaOk(
    windows: map<WindowId, Window>, attempts: map<AttemptKey, Attempt>, sent: multiset<WindowId>)
  {
    forall w :: w in windows ==> QuotaAt(windows[w], |PendingOf(attempts, w)|, |ChargedOf(attempts, w)|, sent[w])
  }

  ghost predicate SentOk(nextWindow: nat, sent: multiset<WindowId>) {
    forall w :: w in sent ==> sent[w] <= MAX_SENDS && w < nextWindow
  }

  ghost predicate Indexed(attempts: map<AttemptKey, Attempt>, k: AttemptKey, w: WindowId) {
    k in attempts && attempts[k].window == Some(w) && attempts[k].issued && attempts[k].windowIndex.Some?
  }

  /** Issued window indices are distinct and below `next_send_index`. */
  ghost predicate IndicesOk(windows: map<WindowId, Window>, attempts: map<AttemptKey, Attempt>) {
    && (forall k, w :: Indexed(attempts, k, w) && w in windows ==> attempts[k].windowIndex.value < windows[w].next)
    && (forall j, k, w :: Indexed(attempts, j, w) && Indexed(attempts, k, w) && j != k ==>
          attempts[j].windowIndex != attempts[k].windowIndex)
  }

  // ---------------------------------------------------------------- sessions

  ghost predicate SessionOk(messages: map<MessageKey, Inbound>, windows: map<WindowId, Window>, s: Session) {
    && s.source in messages
    && messages[s.source].conv == s.conv
    && (s.window.Some? <==> s.conv.channel == WeixinIlink)
    && (s.window.Some? ==>
          s.window.value in windows && windows[s.window.value].conv == s.conv
          && windows[s.window.value].sourceSeq == s.boundarySeq)
  }

  ghost predicate SessionsOk(
    messages: map<MessageKey, Inbound>, windows: map<WindowId, Window>, sessions: map<Token, Session>)
  {
    forall t :: t in sessions ==> SessionOk(messages, windows, sessions[t])
  }

  // ---------------------------------------------------------------- the invariant

  ghost predicate MessagesInv(db: Db) {
    RowsOk(db.inbox, db.messages) && GroupsFlat(db.messages) && AgentOk(db.messages, db.attempts)
  }

  ghost predicate LinksInv(db: Db) {
    && AttemptsOk(db.messages, db.windows, db.attempts)
    && SessionsOk(db.messages, db.windows, db.sessions)
    && WindowsOk(db.accounts, db.messages, db.windows, db.nextWindow)
  }

  ghost predicate LedgerInv(db: Db) {
    && UniqueWindows(db.windows)
    && SecretsOk(db.windows, db.secrets)
    && OneSending(db.attempts)
    && QuotaOk(db.windows, db.attempts, db.sent)
    && SentOk(db.nextWindow, db.sent)
    && IndicesOk(db.windows, db.attempts)
  }

  ghost predicate Inv(db: Db) {
    MessagesInv(db) && LinksInv(db) && LedgerInv(db)
  }

  lemma MessageFacts(db: Db, k: MessageKey)
    requires Inv(db) && k in db.messages
    ensures 0 < db.messages[k].inboxSeq <= |db.inbox| && db.inbox[db.messages[k].inboxSeq - 1] == k
    ensures db.messages[k].conv.channel == k.channel && db.messages[k].conv.account == k.account
    ensures FlatAt(db.messages, k)
  {}

  lemma AttemptFacts(db: Db, k: AttemptKey)
    requires Inv(db) && k in db.attempts
    ensures AttemptOk(db.messages, db.windows, k, db.attempts[k])
    ensures Owns(db.messages[k.source].status, db.attempts[k])
  {}

  lemma WindowFacts(db: Db, w: WindowId)
    requires Inv(db) && w in db.windows
    ensures WindowOk(db.accounts, db.messages, db.nextWindow, w, db.windows[w])
    ensures QuotaAt(db.windows[w], |PendingOf(db.attempts, w)|, |ChargedOf(db.attempts, w)|, db.sent[w])
  {}

  lemma SessionFacts(db: Db, t: Token)
    requires Inv(db) && t in db.sessions
    ensures SessionOk(db.messages, db.windows, db.sessions[t])
  {}

  lemma SecretFacts(db: Db, w: WindowId)
    requires Inv(db) && w in db.secrets
    ensures w in db.windows && db.windows[w].state == Open
  {}

  lemma EmptyDbOk()
    ensures Inv(EMPTY_DB)
  {}

  // ---------------------------------------------------------------- general steps

  /** `b` is a later state of attempt `a`: it neither becomes pending nor enters `sending`. */
  ghost predicate Progress(a: Attempt, b: Attempt) {
    && b.conv == a.conv && b.window == a.window && b.origin == a.origin && b.issued == a.issued
    && (b.windowIndex == a.windowIndex || b.windowIndex.None?)
    && (b.status in {Pending, Sending} ==> b.status == a.status && b.reason == a.reason)
    && (Charged(b) ==> Charged(a))
  }

  ghost predicate AllProgress(before: map<AttemptKey, Attempt>, after: map<AttemptKey, Attempt>) {
    forall k :: k in after ==> k in before && Progress(before[k], after[k])
  }

  lemma SubsetSize<T>(a: set<T>, b: set<T>)
    requires a <= b
    ensures |a| <= |b|
  {
    assert b == a + (b - a);
  }

  lemma ProgressKeepsQuota(windows: map<WindowId, Window>, before: map<AttemptKey, Attempt>,
                           after: map<AttemptKey, Attempt>, sent: multiset<WindowId>)
    requires AllProgress(before, after) && QuotaOk(windows, before, sent)
    ensures QuotaOk(windows, after, sent)
  {
    forall w | w in windows
      ensures QuotaAt(windows[w], |PendingOf(after, w)|, |ChargedOf(after, w)|, sent[w])
    {
      SubsetSize(PendingOf(after, w), PendingOf(before, w));
      SubsetSize(ChargedOf(after, w), ChargedOf(before, w));
      assert QuotaAt(windows[w], |PendingOf(before, w)|, |ChargedOf(before, w)|, sent[w]);
    }
  }

  lemma ProgressKeepsSending(before: map<AttemptKey, Attempt>, after: map<AttemptKey, Attempt>)
    requires AllProgress(before, after) && OneSending(before)
    ensures OneSending(after)
  {
    forall j, k, conv | IlinkSending(after, j, conv) && IlinkSending(after, k, conv) ensures j == k {
      assert IlinkSending(before, j, conv) && IlinkSending(before, k, conv);
    }
  }

  lemma ProgressKeepsIndices(windows: map<WindowId, Window>, before: map<AttemptKey, Attempt>,
                             after: map<AttemptKey, Attempt>)
    requires AllProgress(before, after) && IndicesOk(windows, before)
    ensures IndicesOk(windows, after)
  {
    assert forall k, w :: Indexed(after, k, w) ==>
      Indexed(before, k, w) && after[k].windowIndex == before[k].windowIndex;
  }

  lemma ProgressKeepsAttempts(
    messages: map<MessageKey, Inbound>, windows: map<WindowId, Window>,
    before: map<AttemptKey, Attempt>, after: map<AttemptKey, Attempt>)
    requires AllProgress(before, after) && AttemptsOk(messages, windows, before)
    ensures AttemptsOk(messages, windows, after)
  {
    forall k | k in after ensures AttemptOk(messages, windows, k, after[k]) {
      assert AttemptOk(messages, windows, k, before[k]);
    }
  }

  lemma ProgressKeepsAgent(messages: map<MessageKey, Inbound>, before: map<AttemptKey, Attempt>,
                           after: map<AttemptKey, Attempt>)
    requires AllProgress(before, after) && AgentOk(messages, before)
    ensures AgentOk(messages, after)
  {}

  /** A transaction that only lets attempts progress keeps everything. */
  lemma ProgressKeeps(db: Db, after: map<AttemptKey, Attempt>)
    requires Inv(db) && AllProgress(db.attempts, after)
    ensures Inv(db.(attempts := after))
  {
    ProgressKeepsQuota(db.windows, db.attempts, after, db.sent);
    ProgressKeepsSending(db.attempts, after);
    ProgressKeepsIndices(db.windows, db.attempts, after);
    ProgressKeepsAttempts(db.messages, db.windows, db.attempts, after);
    ProgressKeepsAgent(db.messages, db.attempts, after);
  }

  /** The same rows, up to the columns that message transitions rewrite. */
  ghost predicate SameRows(before: map<MessageKey, Inbound>, after: map<MessageKey, Inbound>) {
    && before.Keys == after.Keys
    && forall k :: k in before ==>
         before[k].conv == after[k].conv && before[k].inboxSeq == after[k].inboxSeq
  }

  /** A transaction that only rewrites messages has to keep groups flat and ownership right. */
  lemma RewriteKeeps(db: Db, after: map<MessageKey, Inbound>)
    requires Inv(db) && SameRows(db.messages, after)
    requires GroupsFlat(after) && AgentOk(after, db.attempts)
    ensures Inv(db.(messages := after))
  {
    forall k | k in db.attempts ensures AttemptOk(after, db.windows, k, db.attempts[k]) {
      assert AttemptOk(db.messages, db.windows, k, db.attempts[k]);
    }
    forall t | t in db.sessions ensures SessionOk(after, db.windows, db.sessions[t]) {
      assert SessionOk(db.messages, db.windows, db.sessions[t]);
    }
    forall w | w in db.windows ensures WindowOk(db.accounts, after, db.nextWindow, w, db.windows[w]) {
      assert WindowOk(db.accounts, db.messages, db.nextWindow, w, db.windows[w]);
    }
    forall k | k in after
      ensures 0 < after[k].inboxSeq <= |db.inbox| && db.inbox[after[k].inboxSeq - 1] == k
      ensures after[k].conv.channel == k.channel && after[k].conv.account == k.account
    {
      assert k in db.messages;
    }
  }

  /** A transaction that only closes, drops or leaves sessions keeps everything. */
  ghost predicate FewerSessions(before: map<Token, Session>, after: map<Token, Session>) {
    forall t :: t in after ==> t in before && after[t] == before[t].(closedAt := after[t].closedAt)
  }

  lemma FewerSessionsKeeps(db: Db, after: map<Token, Session>)
    requires Inv(db) && FewerSessions(db.sessions, after)
    ensures Inv(db.(sessions := after))
  {
    forall t | t in after ensures SessionOk(db.messages, db.windows, after[t]) {
      assert SessionOk(db.messages, db.windows, db.sessions[t]);
    }
  }

  /** Tables that the invariant does not mention. */
  lemma OtherTablesKeep(db: Db, db': Db)
    requires Inv(db)
    requires db' == db.(images := db'.images, failures := db'.failures, auths := db'.auths, cursors := db'.cursors)
    ensures Inv(db')
  {}
}
