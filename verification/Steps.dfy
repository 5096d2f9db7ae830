/** What one transaction may do to messages, attempts, windows and authorizations. */
module Steps {
  import opened Basics
  import opened Tables
  import opened PageOrder
  import opened Ledger
  import opened Inbox
  import opened PageCommit
  import opened Authorization
  import opened Events
  import opened Invariants
  import opened InboxProofs
  import opened LedgerProofs
  import opened PageProofs
  import opened PageTheorems
  import opened RetentionProofs

  // ---------------------------------------------------------------- the relation

  /** The status transitions of a message. */
  predicate MessageEdge(from: InboundStatus, to: InboundStatus) {
    from == to ||
    match from
    case Received => to in {Processing, Ready, Completed, Ignored, Steering, Absorbed, Suppressed}
    case Processing => to in {Received, Preparing, Completed, Failed, Suppressed}
    case Preparing => to in {Received, Completed, Failed, Suppressed}
    case Failed => to in {Received, Processing, Suppressed}
    case Ready => to in {Completed, Suppressed}
    case Steering => to in {Received, Steered, Suppressed}
    case Steered => to in {Received, Absorbed, Suppressed}
    case Completed => false
    case Ignored => false
    case Absorbed => false
    case Suppressed => false
  }

  /** Accepted, failed and uncertain attempts are final, but a delivery failure may revoke an accepted WeChat KF one. */
  predicate AttemptEdge(channel: Channel, from: SendStatus, to: SendStatus) {
    from == to ||
    match from
    case Pending => to in {Sending, FailedSend}
    case Sending => to in {Accepted, FailedSend, Uncertain}
    case Accepted => channel == WechatKf && to == FailedSend
    case FailedSend => false
    case Uncertain => false
  }

  ghost predicate MessageStep(m: Inbound, m': Inbound) {
    m'.conv == m.conv && m'.inboxSeq == m.inboxSeq && m'.customer == m.customer && MessageEdge(m.status, m'.status)
  }

  /** Stored messages keep their row; insertions append new rows. */
  ghost predicate MessagesStep(inbox: seq<MessageKey>, messages: map<MessageKey, Inbound>,
                               inbox': seq<MessageKey>, messages': map<MessageKey, Inbound>)
  {
    && (forall k :: k in messages && k in messages' ==> MessageStep(messages[k], messages'[k]))
    && inbox <= inbox'
    && (forall i :: |inbox| <= i < |inbox'| ==>
          inbox'[i] !in messages && inbox'[i] in messages' && messages'[inbox'[i]].inboxSeq == i + 1)
    && (forall k :: k in messages' && k !in messages ==>
          messages'[k].inboxSeq > |inbox| && messages'[k].status in {Received, Absorbed})
  }

  ghost predicate AttemptStep(a: Attempt, a': Attempt) {
    && a'.conv == a.conv && a'.window == a.window && a'.origin == a.origin
    && (a'.windowIndex == a.windowIndex || a'.windowIndex == None)
    && AttemptEdge(a.conv.channel, a.status, a'.status)
  }

  /** A tool call goes on the wire only while its message is unsettled. */
  ghost predicate Permitted(messages: map<MessageKey, Inbound>, attempts: map<AttemptKey, Attempt>, k: AttemptKey,
                            a: Attempt) {
    a.status == Sending && a.origin == McpTool && (k in attempts ==> attempts[k].status != Sending) ==>
      k.source in messages && messages[k.source].status in {Processing, Preparing, Failed}
  }

  ghost predicate AttemptsStep(messages: map<MessageKey, Inbound>, attempts: map<AttemptKey, Attempt>,
                               attempts': map<AttemptKey, Attempt>)
  {
    forall k :: k in attempts' ==>
      && (k in attempts ==> AttemptStep(attempts[k], attempts'[k]))
      && Permitted(messages, attempts, k, attempts'[k])
  }

  ghost predicate WindowStep(w: Window, w': Window) {
    && w'.conv == w.conv && w'.generation == w.generation && w'.source == w.source && w'.sourceSeq == w.sourceSeq
    && w'.providerSeq == w.providerSeq && w'.issuedAt == w.issuedAt && w'.expiresAt == w.expiresAt
    && w.next <= w'.next && w.transmitted <= w'.transmitted
    && (w'.state == w.state || (w.state == Open && w'.state != Open))
  }

  /** Window ids are never used again, a window that is not open never opens again, and counts only grow. */
  ghost predicate WindowsStep(windows: map<WindowId, Window>, nextWindow: nat, sent: multiset<WindowId>,
                              windows': map<WindowId, Window>, nextWindow': nat, sent': multiset<WindowId>)
  {
    && nextWindow <= nextWindow' && sent <= sent'
    && forall w :: w in windows' ==> if w in windows then WindowStep(windows[w], windows'[w]) else w >= nextWindow
  }

  ghost predicate AuthsStep(auths: map<string, Auth>, auths': map<string, Auth>) {
    forall p :: p in auths && auths[p].authorized ==> p in auths' && auths'[p] == auths[p]
  }

  /** The attempts of a window that go on the wire. */
  ghost function Entered(attempts: map<AttemptKey, Attempt>, attempts': map<AttemptKey, Attempt>, w: WindowId)
    : set<AttemptKey> {
    set k | k in attempts' && attempts'[k].status == Sending && attempts'[k].window == Some(w)
      && !(k in attempts && attempts[k].status == Sending)
  }

  /** The history of sends counts the attempts that go on the wire. */
  ghost predicate SentStep(attempts: map<AttemptKey, Attempt>, sent: multiset<WindowId>,
                           attempts': map<AttemptKey, Attempt>, sent': multiset<WindowId>)
  {
    forall w :: sent'[w] == sent[w] + |Entered(attempts, attempts', w)|
  }

  /** No attempt of a window goes on the wire. */
  ghost predicate NoneEnters(attempts: map<AttemptKey, Attempt>, attempts': map<AttemptKey, Attempt>) {
    forall k :: k in attempts' && attempts'[k].status == Sending && attempts'[k].window.Some? ==>
      k in attempts && attempts[k].status == Sending
  }

  lemma NoneEntersCounts(attempts: map<AttemptKey, Attempt>, attempts': map<AttemptKey, Attempt>,
                         sent: multiset<WindowId>)
    requires NoneEnters(attempts, attempts')
    ensures SentStep(attempts, sent, attempts', sent)
  {
    forall w ensures sent[w] == sent[w] + |Entered(attempts, attempts', w)| {
      assert Entered(attempts, attempts', w) == {};
    }
  }

  lemma OneEntersCounts(attempts: map<AttemptKey, Attempt>, k: AttemptKey, a: Attempt, sent: multiset<WindowId>)
    requires a.status == Sending && a.window.Some? && !(k in attempts && attempts[k].status == Sending)
    ensures SentStep(attempts, sent, attempts[k := a], sent + multiset{a.window.value})
  {
    forall w ensures (sent + multiset{a.window.value})[w] == sent[w] + |Entered(attempts, attempts[k := a], w)| {
      assert Entered(attempts, attempts[k := a], w) == if a.window == Some(w) then {k} else {};
    }
  }

  ghost predicate StepOk(db: Db, after: Db) {
    && MessagesStep(db.inbox, db.messages, after.inbox, after.messages)
    && AttemptsStep(db.messages, db.attempts, after.attempts)
    && WindowsStep(db.windows, db.nextWindow, db.sent, after.windows, after.nextWindow, after.sent)
    && AuthsStep(db.auths, after.auths)
    && SentStep(db.attempts, db.sent, after.attempts, after.sent)
  }

  /** A step that leaves the accounts alone and deletes no message. */
  ghost predicate QuietStep(db: Db, after: Db) {
    StepOk(db, after) && after.accounts == db.accounts && db.messages.Keys <= after.messages.Keys
  }

  /** No window appears, disappears or changes its state. */
  ghost predicate Still(windows: map<WindowId, Window>, windows': map<WindowId, Window>) {
    windows'.Keys == windows.Keys && forall w :: w in windows ==> windows'[w].state == windows[w].state
  }

  ghost predicate StillStep(db: Db, after: Db) {
    QuietStep(db, after) && Still(db.windows, after.windows)
  }

  lemma NoStep(db: Db)
    ensures StillStep(db, db)
  {
    NoneEntersCounts(db.attempts, db.attempts, db.sent);
  }

  /** Pending attempts fail and nothing else changes. */
  ghost predicate OnlyFail(attempts: map<AttemptKey, Attempt>, attempts': map<AttemptKey, Attempt>) {
    attempts'.Keys == attempts.Keys && forall k :: k in attempts ==>
      && AttemptStep(attempts[k], attempts'[k])
      && (attempts'[k].status == attempts[k].status || attempts'[k].status == FailedSend)
  }

  lemma OnlyFailTwice(a: map<AttemptKey, Attempt>, b: map<AttemptKey, Attempt>, c: map<AttemptKey, Attempt>)
    requires OnlyFail(a, b) && OnlyFail(b, c)
    ensures OnlyFail(a, c)
  {}

  lemma OnlyFailSteps(db: Db, attempts: map<AttemptKey, Attempt>)
    requires OnlyFail(db.attempts, attempts)
    ensures AttemptsStep(db.messages, db.attempts, attempts) && SentStep(db.attempts, db.sent, attempts, db.sent)
  {
    NoneEntersCounts(db.attempts, attempts, db.sent);
  }

  lemma FailPendingSteps(db: Db, chosen: set<AttemptKey>, reason: Reason, now: nat)
    ensures OnlyFail(db.attempts, FailPending(db.attempts, chosen, reason, now))
    ensures AttemptsStep(db.messages, db.attempts, FailPending(db.attempts, chosen, reason, now))
    ensures SentStep(db.attempts, db.sent, FailPending(db.attempts, chosen, reason, now), db.sent)
  {
    assert OnlyFail(db.attempts, FailPending(db.attempts, chosen, reason, now));
    hide FailPending;
    OnlyFailSteps(db, FailPending(db.attempts, chosen, reason, now));
  }

  lemma RetireSteps(db: Db, ws: set<WindowId>, state: WindowState, reason: Reason, now: nat)
    requires state != Open
    ensures var after := RetireWindows(db, ws, state, reason, now);
      && OnlyFail(db.attempts, after.attempts)
      && WindowsStep(db.windows, db.nextWindow, db.sent, after.windows, after.nextWindow, after.sent)
  {
    FailPendingSteps(db, WindowAttempts(db.attempts, ws), reason, now);
    hide OnlyFail, FailPending, WindowAttempts, WindowSessions, CloseSessions;
  }

  lemma OneAttempt(messages: map<MessageKey, Inbound>, attempts: map<AttemptKey, Attempt>, k: AttemptKey, a: Attempt)
    requires k in attempts ==> AttemptStep(attempts[k], a)
    requires Permitted(messages, attempts, k, a)
    ensures AttemptsStep(messages, attempts, attempts[k := a])
  {}

  lemma OneWindow(db: Db, id: WindowId, w: Window, sent: multiset<WindowId>)
    requires id in db.windows && WindowStep(db.windows[id], w) && db.sent <= sent
    ensures WindowsStep(db.windows, db.nextWindow, db.sent, db.windows[id := w], db.nextWindow, sent)
  {}

  lemma OneMessage(inbox: seq<MessageKey>, messages: map<MessageKey, Inbound>, k: MessageKey, m: Inbound)
    requires k in messages && MessageStep(messages[k], m)
    ensures MessagesStep(inbox, messages, inbox, messages[k := m])
  {}

  /** Rows change along the edges, and none is added. */
  lemma SameKeysMessages(inbox: seq<MessageKey>, messages: map<MessageKey, Inbound>,
                         messages': map<MessageKey, Inbound>)
    requires messages'.Keys <= messages.Keys
    requires forall k :: k in messages' ==> MessageStep(messages[k], messages'[k])
    ensures MessagesStep(inbox, messages, inbox, messages')
  {}

  // ---------------------------------------------------------------- every transaction

  lemma RegisterSteps(db: Db, account: string, owner: string)
    ensures StepOk(db, After(db, RegisterAccount(db, account, owner)))
    ensures After(db, RegisterAccount(db, account, owner)).windows == db.windows
    ensures After(db, RegisterAccount(db, account, owner)).attempts == db.attempts
    ensures After(db, RegisterAccount(db, account, owner)).auths == db.auths
  {
    NoStep(db);
    hide MessagesStep, AttemptsStep, WindowsStep, AuthsStep, SentStep;
  }

  lemma RotateSteps(db: Db, account: string, owner: string, generation: nat, now: nat)
    ensures StepOk(db, After(db, RotateAccount(db, account, owner, generation, now)))
    ensures After(db, RotateAccount(db, account, owner, generation, now)).auths == db.auths
  {
    NoStep(db);
    RetireSteps(db, OpenWindowsOf(db.windows, account), Cancelled, GenerationChanged, now);
    OnlyFailSteps(db, RetireWindows(db, OpenWindowsOf(db.windows, account), Cancelled, GenerationChanged,
      now).attempts);
    hide MessagesStep, AttemptsStep, WindowsStep, AuthsStep, SentStep, OnlyFail, FailPending, OpenWindowsOf;
  }

  /** Deleting rows is always a step. */
  lemma FewerRows(db: Db, mid: Db, after: Db)
    requires StepOk(db, mid) && mid.auths == db.auths
    requires after == mid.(accounts := after.accounts, messages := after.messages, images := after.images,
      windows := after.windows,
      attempts := after.attempts, sessions := after.sessions, failures := after.failures)
    requires after.messages.Keys <= mid.messages.Keys
    requires forall k :: k in after.messages ==> after.messages[k] == mid.messages[k]
    requires after.windows.Keys <= mid.windows.Keys
    requires forall w :: w in after.windows ==> after.windows[w] == mid.windows[w]
    requires after.attempts.Keys <= mid.attempts.Keys
    requires forall k :: k in after.attempts ==> after.attempts[k] == mid.attempts[k]
    requires mid.inbox == db.inbox && OnlyFail(db.attempts, mid.attempts) && mid.sent == db.sent
    ensures StepOk(db, after)
    ensures after.auths == db.auths
  {
    hide AuthsStep, SentStep, MessageStep, WindowStep, AttemptStep;
    assert NoneEnters(db.attempts, after.attempts);
    NoneEntersCounts(db.attempts, after.attempts, db.sent);
  }

  lemma DeleteSteps(db: Db, account: string, now: nat)
    ensures StepOk(db, After(db, DeleteAccount(db, account, now)))
    ensures After(db, DeleteAccount(db, account, now)).auths == db.auths
  {
    NoStep(db);
    var ws := OpenWindowsOf(db.windows, account);
    RetireSteps(db, ws, Cancelled, AccountDeleted, now);
    var gone := RetireWindows(db, ws, Cancelled, AccountDeleted, now);
    OnlyFailSteps(db, gone.attempts);
    assert StepOk(db, gone) by {
      hide MessagesStep, AttemptsStep, WindowsStep, AuthsStep, SentStep, OnlyFail, FailPending, OpenWindowsOf;
    }
    hide StepOk, OnlyFail, FailPending, OpenWindowsOf, OfAccount;
    if account in db.accounts { FewerRows(db, gone, After(db, DeleteAccount(db, account, now))); }
  }

  lemma SetCursorSteps(db: Db, account: string, generation: nat, expected: string, next: string)
    ensures StepOk(db, After(db, CompareAndSetCursor(db, account, generation, expected, next)))
    ensures After(db, CompareAndSetCursor(db, account, generation, expected, next)).windows == db.windows
    ensures After(db, CompareAndSetCursor(db, account, generation, expected, next)).attempts == db.attempts
    ensures After(db, CompareAndSetCursor(db, account, generation, expected, next)).auths == db.auths
  {
    NoStep(db);
    hide MessagesStep, AttemptsStep, WindowsStep, AuthsStep, SentStep;
  }

  lemma PrepareSteps(db: Db, token: Token, persist: bool, now: nat)
    ensures StillStep(db, After(db, PrepareReply(db, token, persist, now)))
    ensures After(db, PrepareReply(db, token, persist, now)).auths == db.auths
  {
    NoStep(db);
    var txn := PrepareReply(db, token, persist, now);
    SessionFound(db, token, now);
    hide SessionError, Rejection, NextIndex, MessagesStep, AttemptsStep, WindowsStep, AuthsStep, SentStep;
    if txn.Commit? {
      var key, id := txn.value.key, db.sessions[token].window.value;
      assert key !in db.attempts;
      OneAttempt(db.messages, db.attempts, key, txn.db.attempts[key]);
      NoneEntersCounts(db.attempts, txn.db.attempts, db.sent);
      if txn.value.Reserved? { OneWindow(db, id, txn.db.windows[id], db.sent); }
    }
  }

  lemma SessionFound(db: Db, token: Token, now: nat)
    ensures SessionError(db, token, now) in {None, Some(ReplyWindowExpiredError)} ==> HasSessionRow(db, token)
  {}

  lemma StartSteps(db: Db, token: Token, key: AttemptKey, now: nat)
    requires Inv(db)
    ensures StillStep(db, After(db, StartReply(db, token, key, now)))
    ensures After(db, StartReply(db, token, key, now)).auths == db.auths
  {
    NoStep(db);
    var txn := StartReply(db, token, key, now);
    SessionFound(db, token, now);
    hide Inv, SessionError, SendingIn, MessagesStep, AttemptsStep, WindowsStep, AuthsStep, SentStep;
    if txn.Commit? {
      var id := db.sessions[token].window.value;
      AttemptFacts(db, key);
      OneAttempt(db.messages, db.attempts, key, txn.db.attempts[key]);
      OneEntersCounts(db.attempts, key, txn.db.attempts[key], db.sent);
      OneWindow(db, id, txn.db.windows[id], txn.db.sent);
    }
  }

  lemma ReleaseSteps(db: Db, key: AttemptKey, expired: bool, now: nat)
    ensures StillStep(db, After(db, ReleasePending(db, key, expired, now)))
    ensures After(db, ReleasePending(db, key, expired, now)).auths == db.auths
  {
    NoStep(db);
    hide MessagesStep, AttemptsStep, WindowsStep, AuthsStep, SentStep;
    var txn := ReleasePending(db, key, expired, now);
    if txn.Commit? && txn.value {
      var id := db.attempts[key].window.value;
      OneAttempt(db.messages, db.attempts, key, txn.db.attempts[key]);
      NoneEntersCounts(db.attempts, txn.db.attempts, db.sent);
      OneWindow(db, id, txn.db.windows[id], db.sent);
    }
  }

  lemma RecoverSteps(db: Db, now: nat)
    ensures StillStep(db, After(db, RecoverPending(db, now)))
    ensures After(db, RecoverPending(db, now)).auths == db.auths
  {
    NoStep(db);
    FailPendingSteps(db, PendingIlink(db.attempts), AbandonedBeforeTransmit, now);
    hide MessagesStep, AttemptsStep, AuthsStep, SentStep, FailPending, OnlyFail, PendingIlink, Recoverable;
  }

  lemma SystemSendSteps(db: Db, key: MessageKey, origin: Origin, now: nat)
    requires origin != McpTool
    ensures StillStep(db, After(db, StartSystem(db, key, origin, now)))
    ensures After(db, StartSystem(db, key, origin, now)).auths == db.auths
  {
    NoStep(db);
    hide NextIndex, SendingIn, FindSource, MessagesStep, AttemptsStep, WindowsStep, AuthsStep, SentStep;
    var txn := StartSystem(db, key, origin, now);
    if txn.Commit? {
      var id := SourceWindow(db, key).value;
      assert txn.value !in db.attempts;
      OneAttempt(db.messages, db.attempts, txn.value, txn.db.attempts[txn.value]);
      OneEntersCounts(db.attempts, txn.value, txn.db.attempts[txn.value], db.sent);
      OneWindow(db, id, txn.db.windows[id], txn.db.sent);
    }
  }

  lemma PromoteSteps(db: Db, conv: Conversation, now: nat)
    ensures StillStep(db, After(db, PromoteDeferred(db, conv, now)))
    ensures After(db, PromoteDeferred(db, conv, now)).windows == db.windows
    ensures After(db, PromoteDeferred(db, conv, now)).attempts == db.attempts
    ensures After(db, PromoteDeferred(db, conv, now)).auths == db.auths
  {
    NoStep(db);
    hide AttemptsStep, WindowsStep, AuthsStep, SentStep;
  }

  lemma WelcomeSteps(db: Db, key: MessageKey, now: nat)
    requires key in db.messages && db.messages[key].status == Received
    ensures StillStep(db, Welcome(db, key, now))
    ensures Welcome(db, key, now).windows == db.windows
    ensures Welcome(db, key, now).auths == db.auths
  {
    NoStep(db);
    hide MessagesStep, AttemptsStep, WindowsStep, AuthsStep, SentStep;
    var after := Welcome(db, key, now);
    OneMessage(db.inbox, db.messages, key, after.messages[key]);
    NoneEntersCounts(db.attempts, after.attempts, db.sent);
    if AttemptKey(key, 0) !in db.attempts {
      OneAttempt(db.messages, db.attempts, AttemptKey(key, 0), after.attempts[AttemptKey(key, 0)]);
    }
  }

  lemma CountSteps(db: Db, e: Evaluation, peer: string)
    ensures AuthsStep(db.auths, db.auths[peer := Step(RowOf(db.auths, peer), e)])
  {}

  lemma BlockedSteps(db: Db, key: MessageKey, auths: map<string, Auth>, now: nat)
    requires key in db.messages && db.messages[key].status == Received && AuthsStep(db.auths, auths)
    ensures StillStep(db, SetStatus(db.(auths := auths), key, Ignored, false, now))
    ensures SetStatus(db.(auths := auths), key, Ignored, false, now).windows == db.windows
  {
    NoStep(db);
    hide MessagesStep, AttemptsStep, WindowsStep, AuthsStep, SentStep;
    OneMessageIf(db, key, db.messages[key].(status := Ignored, payload := None, updatedAt := now));
  }

  lemma AuthorizedSteps(db: Db, key: MessageKey, auths: map<string, Auth>, now: nat)
    requires key in db.messages && db.messages[key].status == Received && AuthsStep(db.auths, auths)
    ensures StillStep(db, Welcome(db.(auths := auths), key, now))
    ensures Welcome(db.(auths := auths), key, now).windows == db.windows
  {
    WelcomeSteps(db, key, now);
    WelcomeElsewhere(db, auths, key, now);
    hide MessagesStep, AttemptsStep, WindowsStep, AuthsStep, SentStep, Welcome;
  }

  lemma EvaluateSteps(db: Db, e: Evaluation, peer: string, now: nat)
    requires e.key in db.messages ==> db.messages[e.key].status == Received
    ensures StillStep(db, After(db, Evaluate(db, e, peer, now)))
    ensures After(db, Evaluate(db, e, peer, now)).windows == db.windows
  {
    NoStep(db);
    CountSteps(db, e, peer);
    hide Outcome, Step, Welcome, SetStatus, StepOk, QuietStep, StillStep, AuthsStep, SentStep;
    if e.key in db.messages {
      var auths := db.auths[peer := Step(RowOf(db.auths, peer), e)];
      BlockedSteps(db, e.key, auths, now);
      AuthorizedSteps(db, e.key, auths, now);
    }
  }

  /** Reserving the confirmation does not depend on the authorizations. */
  lemma WelcomeElsewhere(db: Db, auths: map<string, Auth>, key: MessageKey, now: nat)
    requires key in db.messages
    ensures Welcome(db.(auths := auths), key, now) == Welcome(db, key, now).(auths := auths)
  {}

  lemma OneMessageIf(db: Db, k: MessageKey, m: Inbound)
    requires k in db.messages
    ensures MessageStep(db.messages[k], m) ==> MessagesStep(db.inbox, db.messages, db.inbox, db.messages[k := m])
    ensures db.messages[k := db.messages[k]] == db.messages
  {}

  lemma ClaimSteps(db: Db, key: MessageKey, now: nat)
    ensures StillStep(db, After(db, Claim(db, key, now)))
    ensures After(db, Claim(db, key, now)).windows == db.windows
    ensures After(db, Claim(db, key, now)).attempts == db.attempts
    ensures After(db, Claim(db, key, now)).auths == db.auths
  {
    NoStep(db);
    hide MessagesStep, AttemptsStep, WindowsStep, AuthsStep, SentStep;
    var txn := Claim(db, key, now);
    if txn.Commit? && txn.db != db { OneMessage(db.inbox, db.messages, key, txn.db.messages[key]); }
  }

  lemma PreparingSteps(db: Db, key: MessageKey, turnId: string, now: nat)
    ensures StillStep(db, After(db, MarkPreparing(db, key, turnId, now)))
    ensures After(db, MarkPreparing(db, key, turnId, now)).windows == db.windows
    ensures After(db, MarkPreparing(db, key, turnId, now)).attempts == db.attempts
    ensures After(db, MarkPreparing(db, key, turnId, now)).auths == db.auths
  {
    NoStep(db);
    hide MessagesStep, AttemptsStep, WindowsStep, AuthsStep, SentStep;
    var txn := MarkPreparing(db, key, turnId, now);
    if txn.Commit? && txn.db != db { OneMessage(db.inbox, db.messages, key, txn.db.messages[key]); }
  }

  lemma IgnoreSteps(db: Db, key: MessageKey, now: nat)
    ensures StillStep(db, After(db, MarkIgnored(db, key, now)))
    ensures After(db, MarkIgnored(db, key, now)).windows == db.windows
    ensures After(db, MarkIgnored(db, key, now)).attempts == db.attempts
    ensures After(db, MarkIgnored(db, key, now)).auths == db.auths
  {
    NoStep(db);
    hide MessagesStep, AttemptsStep, WindowsStep, AuthsStep, SentStep;
    var txn := MarkIgnored(db, key, now);
    if txn.Commit? && txn.db != db { OneMessage(db.inbox, db.messages, key, txn.db.messages[key]); }
  }

  lemma SteerSteps(db: Db, key: MessageKey, primary: MessageKey, now: nat)
    ensures StillStep(db, After(db, BeginSteering(db, key, primary, now)))
    ensures After(db, BeginSteering(db, key, primary, now)).windows == db.windows
    ensures After(db, BeginSteering(db, key, primary, now)).attempts == db.attempts
    ensures After(db, BeginSteering(db, key, primary, now)).auths == db.auths
  {
    NoStep(db);
    hide MessagesStep, AttemptsStep, WindowsStep, AuthsStep, SentStep;
    var txn := BeginSteering(db, key, primary, now);
    if txn.Commit? { OneMessage(db.inbox, db.messages, key, txn.db.messages[key]); }
  }

  lemma ConfirmSteps(db: Db, key: MessageKey, turnId: string, now: nat)
    ensures StillStep(db, After(db, ConfirmSteered(db, key, turnId, now)))
    ensures After(db, ConfirmSteered(db, key, turnId, now)).windows == db.windows
    ensures After(db, ConfirmSteered(db, key, turnId, now)).attempts == db.attempts
    ensures After(db, ConfirmSteered(db, key, turnId, now)).auths == db.auths
  {
    NoStep(db);
    hide MessagesStep, AttemptsStep, WindowsStep, AuthsStep, SentStep;
    var txn := ConfirmSteered(db, key, turnId, now);
    if txn.Commit? && txn.db != db { OneMessage(db.inbox, db.messages, key, txn.db.messages[key]); }
  }

  lemma RequeueSteps(db: Db, key: MessageKey, primary: MessageKey, now: nat)
    ensures StillStep(db, After(db, RequeueSteering(db, key, primary, now)))
    ensures After(db, RequeueSteering(db, key, primary, now)).windows == db.windows
    ensures After(db, RequeueSteering(db, key, primary, now)).attempts == db.attempts
    ensures After(db, RequeueSteering(db, key, primary, now)).auths == db.auths
  {
    NoStep(db);
    hide MessagesStep, AttemptsStep, WindowsStep, AuthsStep, SentStep;
    var txn := RequeueSteering(db, key, primary, now);
    if txn.Commit? && txn.db != db { OneMessage(db.inbox, db.messages, key, txn.db.messages[key]); }
  }

  lemma CompleteSteps(db: Db, key: MessageKey, now: nat)
    requires key in db.messages ==> db.messages[key].status == Received
    ensures StillStep(db, After(db, MarkCompleted(db, key, now)))
    ensures After(db, MarkCompleted(db, key, now)).windows == db.windows
    ensures After(db, MarkCompleted(db, key, now)).attempts == db.attempts
    ensures After(db, MarkCompleted(db, key, now)).auths == db.auths
  {
    NoStep(db);
    hide AttemptsStep, WindowsStep, AuthsStep, SentStep;
  }

  lemma FailSteps(db: Db, key: MessageKey, now: nat)
    ensures StillStep(db, After(db, FailInbound(db, key, now)))
    ensures After(db, FailInbound(db, key, now)).windows == db.windows
    ensures After(db, FailInbound(db, key, now)).attempts == db.attempts
    ensures After(db, FailInbound(db, key, now)).auths == db.auths
  {
    NoStep(db);
    hide AttemptsStep, WindowsStep, AuthsStep, SentStep;
  }

  lemma DeferSteps(db: Db, key: MessageKey, now: nat)
    ensures StillStep(db, After(db, DeferActive(db, key, now)))
    ensures After(db, DeferActive(db, key, now)).windows == db.windows
    ensures After(db, DeferActive(db, key, now)).attempts == db.attempts
    ensures After(db, DeferActive(db, key, now)).auths == db.auths
  {
    NoStep(db);
    hide AttemptsStep, WindowsStep, AuthsStep, SentStep;
  }

  lemma SuppressSteps(db: Db, key: MessageKey, now: nat)
    ensures StillStep(db, After(db, Suppress(db, key, now)))
    ensures After(db, Suppress(db, key, now)).windows == db.windows
    ensures After(db, Suppress(db, key, now)).auths == db.auths
  {
    NoStep(db);
    SameKeysMessages(db.inbox, db.messages, After(db, Suppress(db, key, now)).messages);
    FailPendingSteps(db, MessageAttempts(db.attempts, key), SuppressedGroup, now);
    hide WindowsStep, AuthsStep, SentStep, MessagesStep, AttemptsStep, FailPending, OnlyFail;
  }

  lemma FinalizeSteps(db: Db, key: MessageKey, steered: set<MessageKey>, reported: seq<AttemptKey>, now: nat)
    ensures StillStep(db, After(db, Finalize(db, key, steered, reported, now)))
    ensures After(db, Finalize(db, key, steered, reported, now)).windows == db.windows
    ensures After(db, Finalize(db, key, steered, reported, now)).attempts == db.attempts
    ensures After(db, Finalize(db, key, steered, reported, now)).auths == db.auths
  {
    NoStep(db);
    hide AttemptsStep, WindowsStep, AuthsStep, SentStep;
  }

  lemma EndSessionSteps(db: Db, token: Token, now: nat)
    ensures StillStep(db, After(db, CloseSession(db, token, now)))
    ensures After(db, CloseSession(db, token, now)).windows == db.windows
    ensures After(db, CloseSession(db, token, now)).attempts == db.attempts
    ensures After(db, CloseSession(db, token, now)).auths == db.auths
  {
    NoStep(db);
    hide MessagesStep, AttemptsStep, WindowsStep, AuthsStep, SentStep;
  }

  lemma EndSessionsSteps(db: Db, key: MessageKey, now: nat)
    ensures StillStep(db, After(db, CloseSessionsOf(db, key, now)))
    ensures After(db, CloseSessionsOf(db, key, now)).windows == db.windows
    ensures After(db, CloseSessionsOf(db, key, now)).attempts == db.attempts
    ensures After(db, CloseSessionsOf(db, key, now)).auths == db.auths
  {
    NoStep(db);
    hide MessagesStep, AttemptsStep, WindowsStep, AuthsStep, SentStep;
  }

  lemma OpenSessionSteps(db: Db, token: Token, key: MessageKey, boundary: MessageKey, ttl: nat, now: nat)
    requires token !in db.sessions
    ensures StillStep(db, After(db, CreateSession(db, token, key, boundary, ttl, now)))
    ensures After(db, CreateSession(db, token, key, boundary, ttl, now)).windows == db.windows
    ensures After(db, CreateSession(db, token, key, boundary, ttl, now)).attempts == db.attempts
    ensures After(db, CreateSession(db, token, key, boundary, ttl, now)).auths == db.auths
  {
    NoStep(db);
    hide MessagesStep, AttemptsStep, WindowsStep, AuthsStep, SentStep;
  }

  lemma AgentSendSteps(db: Db, token: Token, now: nat)
    ensures StillStep(db, After(db, ReserveAgentSend(db, token, now)))
    ensures After(db, ReserveAgentSend(db, token, now)).windows == db.windows
    ensures After(db, ReserveAgentSend(db, token, now)).auths == db.auths
  {
    NoStep(db);
    NoneEntersCounts(db.attempts, After(db, ReserveAgentSend(db, token, now)).attempts, db.sent);
    hide MessagesStep, WindowsStep, AuthsStep, SentStep;
  }

  lemma NoticeSteps(db: Db, key: MessageKey, now: nat)
    ensures StillStep(db, After(db, ReserveQueueNotice(db, key, now)))
    ensures After(db, ReserveQueueNotice(db, key, now)).windows == db.windows
    ensures After(db, ReserveQueueNotice(db, key, now)).auths == db.auths
  {
    NoStep(db);
    NoneEntersCounts(db.attempts, After(db, ReserveQueueNotice(db, key, now)).attempts, db.sent);
    hide MessagesStep, WindowsStep, AuthsStep, SentStep;
  }

  lemma NextSendSteps(db: Db, key: AttemptKey, now: nat)
    requires Inv(db)
    ensures StillStep(db, After(db, BeginSend(db, key, now)))
    ensures After(db, BeginSend(db, key, now)).windows == db.windows
    ensures After(db, BeginSend(db, key, now)).auths == db.auths
  {
    NoStep(db);
    hide Inv, SendingIn, MessagesStep, WindowsStep, AuthsStep, AttemptsStep, SentStep;
    var txn := BeginSend(db, key, now);
    if txn.Commit? {
      AttemptFacts(db, key);
      OneAttempt(db.messages, db.attempts, key, txn.db.attempts[key]);
      NoneEntersCounts(db.attempts, txn.db.attempts, db.sent);
    }
  }

  /** Settling completes a message at most. */
  ghost predicate Settles(messages: map<MessageKey, Inbound>, messages': map<MessageKey, Inbound>) {
    messages'.Keys == messages.Keys && forall k :: k in messages ==>
      && messages'[k].conv == messages[k].conv && messages'[k].inboxSeq == messages[k].inboxSeq
      && messages'[k].customer == messages[k].customer && messages'[k].turnId == messages[k].turnId
      && (messages'[k].status == messages[k].status
          || (messages[k].status in {Ready, Processing, Preparing} && messages'[k].status == Completed))
  }

  lemma SettleOnly(db: Db, key: MessageKey, now: nat)
    ensures Settle(db, key, now) == db.(messages := Settle(db, key, now).messages)
    ensures Settles(db.messages, Settle(db, key, now).messages)
  {
    hide LaterCustomer;
  }

  lemma SettlesSteps(inbox: seq<MessageKey>, messages: map<MessageKey, Inbound>, messages': map<MessageKey, Inbound>)
    requires Settles(messages, messages')
    ensures MessagesStep(inbox, messages, inbox, messages')
  {}

  /** An attempt changes and its message may settle. */
  lemma AttemptThenSettle(db: Db, key: AttemptKey, a: Attempt, now: nat)
    requires key in db.attempts && AttemptStep(db.attempts[key], a) && a.status != Sending
    ensures StillStep(db, Settle(db.(attempts := db.attempts[key := a]), key.source, now))
    ensures Settle(db.(attempts := db.attempts[key := a]), key.source, now).windows == db.windows
    ensures Settle(db.(attempts := db.attempts[key := a]), key.source, now).auths == db.auths
  {
    NoStep(db);
    var changed := db.(attempts := db.attempts[key := a]);
    SettleOnly(changed, key.source, now);
    SettlesSteps(db.inbox, db.messages, Settle(changed, key.source, now).messages);
    OneAttempt(db.messages, db.attempts, key, a);
    NoneEntersCounts(db.attempts, db.attempts[key := a], db.sent);
    hide Settle, MessagesStep, AttemptsStep, WindowsStep, AuthsStep, SentStep;
  }

  lemma FinishSteps(db: Db, key: AttemptKey, status: SendStatus, providerId: string, reason: Reason, now: nat)
    requires status in {Accepted, Uncertain}
    ensures StillStep(db, After(db, FinishSending(db, key, status, providerId, reason, now)))
    ensures After(db, FinishSending(db, key, status, providerId, reason, now)).windows == db.windows
    ensures After(db, FinishSending(db, key, status, providerId, reason, now)).auths == db.auths
  {
    NoStep(db);
    hide Settle, StepOk, QuietStep, StillStep;
    var txn := FinishSending(db, key, status, providerId, reason, now);
    if txn.Commit? && db.attempts[key].status == Sending {
      AttemptThenSettle(db, key, db.attempts[key].(
        status := status, providerMessageId := providerId, reason := reason, updatedAt := now), now);
    }
  }

  lemma RefuseSteps(db: Db, key: AttemptKey, code: string, now: nat)
    ensures StillStep(db, After(db, FailSend(db, key, code, now)))
    ensures After(db, FailSend(db, key, code, now)).windows == db.windows
    ensures After(db, FailSend(db, key, code, now)).auths == db.auths
  {
    NoStep(db);
    hide Settle, StepOk, QuietStep, StillStep;
    if key in db.attempts && db.attempts[key].status == Sending {
      AttemptThenSettle(db, key, db.attempts[key].(status := FailedSend, reason := ProviderError(code),
        updatedAt := now), now);
    }
  }

  lemma ApplyFailureAfter(db: Db, accepted: Db, key: AttemptKey, failType: int, now: nat)
    requires StillStep(db, accepted) && accepted.auths == db.auths && accepted.windows == db.windows
    requires key in db.attempts && key in accepted.attempts
    requires accepted.attempts[key].conv.channel == WechatKf && accepted.attempts[key].status != Sending
    requires AttemptEdge(WechatKf, db.attempts[key].status, FailedSend)
    ensures StillStep(db, ApplyFailure(accepted, key, failType, now))
    ensures ApplyFailure(accepted, key, failType, now).windows == db.windows
    ensures ApplyFailure(accepted, key, failType, now).auths == db.auths
  {
    var after := ApplyFailure(accepted, key, failType, now);
    forall w ensures Entered(db.attempts, after.attempts, w) == Entered(db.attempts, accepted.attempts, w) {}
    hide MessagesStep, WindowsStep, AuthsStep, Entered;
  }

  lemma FinishKeys(db: Db, key: AttemptKey, status: SendStatus, providerId: string, reason: Reason, now: nat)
    requires FinishSending(db, key, status, providerId, reason, now).Commit?
    ensures key in db.attempts && db.attempts[key].status in {Sending, status}
    ensures FinishSending(db, key, status, providerId, reason, now).db.attempts[key].status == status
  {}

  lemma AcceptSteps(db: Db, key: AttemptKey, providerId: string, now: nat)
    ensures StillStep(db, After(db, CompleteSend(db, key, providerId, now)))
    ensures After(db, CompleteSend(db, key, providerId, now)).windows == db.windows
    ensures After(db, CompleteSend(db, key, providerId, now)).auths == db.auths
  {
    NoStep(db);
    FinishSteps(db, key, Accepted, providerId, NoReason, now);
    var accepted := FinishSending(db, key, Accepted, providerId, NoReason, now);
    if accepted.Commit? {
      FinishKeys(db, key, Accepted, providerId, NoReason, now);
      hide FinishSending, StepOk, QuietStep, StillStep, ApplyFailure;
      if key in accepted.db.attempts && accepted.db.attempts[key].conv.channel == WechatKf
          && providerId in accepted.db.failures {
        ApplyFailureAfter(db, accepted.db, key, accepted.db.failures[providerId].failType, now);
      }
    }
  }

  lemma DeliveryFailedSteps(db: Db, providerId: string, failType: int, now: nat)
    ensures StillStep(db, After(db, MarkMsgFailed(db, providerId, failType, now)))
    ensures After(db, MarkMsgFailed(db, providerId, failType, now)).windows == db.windows
    ensures After(db, MarkMsgFailed(db, providerId, failType, now)).auths == db.auths
  {
    NoStep(db);
    var observed := Observe(db, providerId, failType, now);
    hide StepOk, QuietStep, StillStep, ApplyFailure;
    ObserveSteps(db, providerId, failType, now);
    if exists k :: AcceptedAs(db.attempts, k, providerId) {
      ApplyFailureAfter(db, observed, AcceptedKey(db.attempts, providerId), failType, now);
    }
  }

  lemma ObserveSteps(db: Db, providerId: string, failType: int, now: nat)
    ensures StillStep(db, Observe(db, providerId, failType, now))
    ensures Observe(db, providerId, failType, now).windows == db.windows
    ensures Observe(db, providerId, failType, now).auths == db.auths
  {
    NoStep(db);
    hide MessagesStep, AttemptsStep, WindowsStep, AuthsStep, SentStep;
  }

  lemma {:induction false} SettleAllOnly(db: Db, keys: seq<MessageKey>, now: nat)
    ensures SettleAll(db, keys, now) == db.(messages := SettleAll(db, keys, now).messages)
    ensures Settles(db.messages, SettleAll(db, keys, now).messages)
    decreases |keys|
  {
    hide Settle;
    if keys != [] {
      SettleOnly(db, keys[0], now);
      SettleAllOnly(Settle(db, keys[0], now), keys[1..], now);
    }
  }

  lemma InterruptedSteps(db: Db, now: nat)
    ensures var after := Interrupted(db, now);
      AttemptsStep(db.messages, db.attempts, after.attempts) && SentStep(db.attempts, db.sent, after.attempts, db.sent)
  {
    NoneEntersCounts(db.attempts, Interrupted(db, now).attempts, db.sent);
    hide SentStep;
  }

  lemma SettledThenRequeued(db: Db, settled: Db, now: nat)
    requires Settles(db.messages, settled.messages) && settled.inbox == db.inbox
    ensures MessagesStep(db.inbox, db.messages, db.inbox, RequeueUnsent(settled, now).messages)
  {}

  lemma RestartSteps(db: Db, sources: seq<MessageKey>, now: nat)
    requires (set k | k in sources) == StartupSources(Interrupted(db, now))
    ensures StillStep(db, After(db, RecoverStartup(db, sources, now)))
    ensures After(db, RecoverStartup(db, sources, now)).windows == db.windows
    ensures After(db, RecoverStartup(db, sources, now)).auths == db.auths
  {
    NoStep(db);
    SettleAllOnly(Interrupted(db, now), sources, now);
    InterruptedSteps(db, now);
    var settled := SettleAll(Interrupted(db, now), sources, now);
    assert Interrupted(db, now) == db.(attempts := Interrupted(db, now).attempts,
      sessions := Interrupted(db, now).sessions);
    SettledThenRequeued(db, settled, now);
    hide WindowsStep, AuthsStep, SentStep, SettleAll, AttemptsStep, MessagesStep, Settles, Interrupted;
  }

  lemma RetainMessages(db: Db, now: nat)
    ensures MessagesStep(db.inbox, db.messages, db.inbox, CleanMessages(db.messages, now))
  {}

  lemma RetainAttempts(db: Db, now: nat)
    ensures AttemptsStep(db.messages, db.attempts, CleanAttempts(db.attempts, now))
    ensures SentStep(db.attempts, db.sent, CleanAttempts(db.attempts, now), db.sent)
  {
    var after := CleanAttempts(db.attempts, now);
    hide AuditExpired;
    forall k | k in after
      ensures k in db.attempts && AttemptStep(db.attempts[k], after[k])
        && Permitted(db.messages, db.attempts, k, after[k]) {}
    NoneEntersCounts(db.attempts, after, db.sent);
  }

  lemma RetainWindows(db: Db, attempts: map<AttemptKey, Attempt>, messages: map<MessageKey, Inbound>, now: nat)
    ensures WindowsStep(db.windows, db.nextWindow, db.sent, CloseExpired(db.windows, attempts, messages, now),
      db.nextWindow, db.sent)
  {
    hide Outstanding;
  }

  lemma FewerWindows(db: Db, windows: map<WindowId, Window>, kept: map<WindowId, Window>)
    requires WindowsStep(db.windows, db.nextWindow, db.sent, windows, db.nextWindow, db.sent)
    requires kept.Keys <= windows.Keys && forall w :: w in kept ==> kept[w] == windows[w]
    ensures WindowsStep(db.windows, db.nextWindow, db.sent, kept, db.nextWindow, db.sent)
  {}

  lemma RetentionShape(db: Db, now: nat)
    ensures var after := Retention(db, now);
      && after.messages == CleanMessages(db.messages, now) && after.attempts == CleanAttempts(db.attempts, now)
      && after.windows == CloseExpired(db.windows, after.attempts, after.messages, now)
      && after == db.(messages := after.messages, attempts := after.attempts, sessions := after.sessions,
                      failures := after.failures, secrets := after.secrets, windows := after.windows)
  {
    hide CleanMessages, CleanAttempts, CleanSessions, CloseExpired;
  }

  lemma CleanupShape(db: Db, now: nat)
    ensures var txn := Cleanup(db, now);
      txn.Commit? ==> txn.db == Retention(db, now).(windows := KeptWindows(Retention(db, now), now),
        secrets := txn.db.secrets)
  {
    hide Retention, KeptWindows, Dangling;
  }

  lemma RetainSteps(db: Db, now: nat)
    ensures QuietStep(db, After(db, Cleanup(db, now)))
    ensures After(db, Cleanup(db, now)).auths == db.auths
  {
    NoStep(db);
    RetentionShape(db, now);
    CleanupShape(db, now);
    RetainMessages(db, now);
    RetainAttempts(db, now);
    var retained := Retention(db, now);
    RetainWindows(db, retained.attempts, retained.messages, now);
    FewerWindows(db, retained.windows, KeptWindows(retained, now));
    hide MessagesStep, AttemptsStep, WindowsStep, AuthsStep, SentStep, CleanMessages, CleanAttempts, CleanSessions,
      CloseExpired, KeptWindows, Dangling, Cleanup, Retention;
  }

  lemma InsertOneSteps(db: Db, stored: Db, a: Arrival, now: nat)
    requires MessagesStep(db.inbox, db.messages, stored.inbox, stored.messages)
    requires db.messages.Keys <= stored.messages.Keys
    ensures var after := InsertOne(stored, a, now);
      MessagesStep(db.inbox, db.messages, after.inbox, after.messages) && db.messages.Keys <= after.messages.Keys
  {
    var after := InsertOne(stored, a, now);
    hide MessageStep;
    if a.key !in stored.messages {
      forall i | |db.inbox| <= i < |after.inbox|
        ensures after.inbox[i] !in db.messages && after.inbox[i] in after.messages
          && after.messages[after.inbox[i]].inboxSeq == i + 1
      {
        if i < |stored.inbox| { assert stored.inbox[i] == after.inbox[i]; }
      }
    }
  }

  lemma {:induction false} InsertAllSteps(db: Db, arrivals: seq<Arrival>, now: nat)
    ensures var after := InsertAll(db, arrivals, now);
      && MessagesStep(db.inbox, db.messages, after.inbox, after.messages) && db.messages.Keys <= after.messages.Keys
      && after == db.(inbox := after.inbox, messages := after.messages)
  {
    if arrivals != [] {
      InsertAllSteps(db, arrivals[..|arrivals| - 1], now);
      InsertOneSteps(db, InsertAll(db, arrivals[..|arrivals| - 1], now), arrivals[|arrivals| - 1], now);
      hide MessagesStep;
    } else {
      NoStep(db);
    }
  }

  lemma IngestSteps(db: Db, account: string, expected: string, next: string, arrivals: seq<Arrival>, now: nat)
    ensures StillStep(db, After(db, IngestSyncPage(db, account, expected, next, arrivals, now)))
    ensures After(db, IngestSyncPage(db, account, expected, next, arrivals, now)).windows == db.windows
    ensures After(db, IngestSyncPage(db, account, expected, next, arrivals, now)).attempts == db.attempts
    ensures After(db, IngestSyncPage(db, account, expected, next, arrivals, now)).auths == db.auths
  {
    NoStep(db);
    InsertAllSteps(db, arrivals, now);
    hide MessagesStep, AttemptsStep, WindowsStep, AuthsStep, SentStep, InsertAll;
  }

  // ---------------------------------------------------------------- a poll page

  /** Absorbing takes waiting messages only. */
  ghost predicate Absorbs(messages: map<MessageKey, Inbound>, messages': map<MessageKey, Inbound>) {
    messages'.Keys == messages.Keys && forall k :: k in messages ==>
      && messages'[k].conv == messages[k].conv && messages'[k].inboxSeq == messages[k].inboxSeq
      && messages'[k].customer == messages[k].customer
      && (|| messages'[k].status == messages[k].status
          || (messages[k].status == Received && messages'[k].status == Absorbed))
  }

  lemma AbsorbAbsorbs(messages: map<MessageKey, Inbound>, keys: set<MessageKey>, now: nat)
    ensures Absorbs(messages, Absorb(messages, keys, now))
  {}

  lemma AbsorbsTwice(a: map<MessageKey, Inbound>, b: map<MessageKey, Inbound>, c: map<MessageKey, Inbound>)
    requires Absorbs(a, b) && Absorbs(b, c)
    ensures Absorbs(a, c)
  {}

  lemma DeliverAbsorbs(db: Db, added: seq<Entry>, open: MessageKey, payload: Payload, now: nat)
    requires open in db.messages
    ensures Absorbs(db.messages, Deliver(db, added, open, payload, now).messages)
  {
    var absorbed := Absorb(db.messages, KeysOf(added) - {open}, now);
    AbsorbAbsorbs(db.messages, KeysOf(added) - {open}, now);
    AbsorbAbsorbs(absorbed, BacklogKeys(absorbed, open), now);
    var others := Absorb(absorbed, BacklogKeys(absorbed, open), now);
    AbsorbsTwice(db.messages, absorbed, others);
    DeliverShape(db, added, open, payload, now);
    hide Absorb, Deliver, BacklogKeys, KeysOf;
    SamePayloadAbsorbs(db.messages, others, Deliver(db, added, open, payload, now).messages, open);
  }

  lemma SamePayloadAbsorbs(a: map<MessageKey, Inbound>, b: map<MessageKey, Inbound>, c: map<MessageKey, Inbound>,
                           open: MessageKey)
    requires Absorbs(a, b) && open in b && c.Keys == b.Keys && (forall k :: k in b && k != open ==> c[k] == b[k])
    requires c[open] == b[open].(payload := c[open].payload, updatedAt := c[open].updatedAt)
    ensures Absorbs(a, c)
  {}

  lemma FinishAbsorbs(db: Db, conv: Conversation, added: seq<Entry>, now: nat)
    ensures Absorbs(db.messages, Finish(db, conv, added, now).messages)
  {
    var d := Deliverable(db, conv, added);
    AbsorbAbsorbs(db.messages, KeysOf(added), now);
    hide Absorb, Absorbs, Deliver, Deliverable;
    if d.Some? && KeyOf(d.value) in db.messages { DeliverAbsorbs(db, added, KeyOf(d.value), d.value.payload, now); }
  }

  lemma FinishElsewhere(db: Db, conv: Conversation, added: seq<Entry>, now: nat)
    ensures var after := Finish(db, conv, added, now);
      after == db.(messages := after.messages, images := after.images)
  {
    hide Absorb, BacklogKeys, InOrder, LatestImages, StoredSummaries, PageSummaries, Join, KeysOf, Take, Reverse,
      ImageNote, Deliverable;
  }

  lemma ThenAbsorbs(inbox: seq<MessageKey>, messages: map<MessageKey, Inbound>, inbox': seq<MessageKey>,
                    stored: map<MessageKey, Inbound>, after: map<MessageKey, Inbound>)
    requires MessagesStep(inbox, messages, inbox', stored) && Absorbs(stored, after)
    requires forall k :: k in messages ==> k in stored && stored[k] == messages[k]
    ensures MessagesStep(inbox, messages, inbox', after)
  {}

  lemma WindowsChain(db: Db, mid: Db, after: Db)
    requires WindowsStep(db.windows, db.nextWindow, db.sent, mid.windows, mid.nextWindow, mid.sent)
    requires WindowsStep(mid.windows, mid.nextWindow, mid.sent, after.windows, after.nextWindow, after.sent)
    requires db.windows.Keys <= mid.windows.Keys
    ensures WindowsStep(db.windows, db.nextWindow, db.sent, after.windows, after.nextWindow, after.sent)
  {}

  lemma SupersedeSteps(db: Db, conv: Conversation, now: nat)
    ensures var after := Supersede(db, conv, now);
      && WindowsStep(db.windows, db.nextWindow, db.sent, after.windows, after.nextWindow, after.sent)
      && after.windows.Keys == db.windows.Keys && OnlyFail(db.attempts, after.attempts)
      && after == db.(windows := after.windows, attempts := after.attempts, sessions := after.sessions,
            secrets := after.secrets)
  {
    hide CloseSessions, WindowSessions, WindowAttempts;
    if OpenWindow(db, conv).None? {
      NoStep(db);
      hide WindowsStep;
    } else {
      hide WindowStep;
      RetireStep(db, OpenWindow(db, conv).value, now);
    }
  }

  lemma RetireStep(db: Db, w: WindowId, now: nat)
    requires w in db.windows
    ensures forall v :: v in db.windows ==>
      WindowStep(db.windows[v], RetireWindows(db, {w}, Superseded, SupersededByNewer, now).windows[v])
  {
    hide CloseSessions, WindowSessions, WindowAttempts, FailPending;
  }

  lemma AddWindowSteps(db: Db, w: Window)
    requires db.nextWindow !in db.windows
    ensures var after := AddWindow(db, w);
      && WindowsStep(db.windows, db.nextWindow, db.sent, after.windows, after.nextWindow, after.sent)
      && db.windows.Keys <= after.windows.Keys
  {}

  lemma InsertWindowSteps(db: Db, generation: nat, e: Entry, pageSources: set<MessageKey>, now: nat)
    requires Inv(db) && KeyOf(e) in db.messages && InsertWindow(db, generation, e, pageSources, now).Commit?
    ensures var after := InsertWindow(db, generation, e, pageSources, now).db;
      && WindowsStep(db.windows, db.nextWindow, db.sent, after.windows, after.nextWindow, after.sent)
      && OnlyFail(db.attempts, after.attempts) && db.windows.Keys <= after.windows.Keys
      && after == db.(windows := after.windows, nextWindow := after.nextWindow, attempts := after.attempts,
                      sessions := after.sessions, secrets := after.secrets)
  {
    WindowBound(db);
    hide Inv, BecomesOpen, Supersede, WindowsStep, OnlyFail;
    var opens := BecomesOpen(db, e, pageSources);
    SupersedeSteps(db, e.conv, now);
    if opens {
      ThenAddSteps(db, Supersede(db, e.conv, now), NewWindow(generation, e, db.messages[KeyOf(e)].inboxSeq, Open, now));
    } else {
      OnlyFailNothing(db.attempts);
      AddWindowSteps(db, NewWindow(generation, e, db.messages[KeyOf(e)].inboxSeq, Superseded, now));
    }
  }

  lemma ThenAddSteps(db: Db, ready: Db, w: Window)
    requires db.nextWindow !in db.windows && ready.windows.Keys == db.windows.Keys && ready.nextWindow == db.nextWindow
    requires WindowsStep(db.windows, db.nextWindow, db.sent, ready.windows, ready.nextWindow, ready.sent)
    ensures var after := AddWindow(ready, w);
      WindowsStep(db.windows, db.nextWindow, db.sent, after.windows, after.nextWindow, after.sent)
        && db.windows.Keys <= after.windows.Keys
  {
    AddWindowSteps(ready, w);
    hide WindowsStep;
    WindowsChain(db, ready, AddWindow(ready, w));
  }

  lemma {:induction false} InsertWindowsSteps(db0: Db, db: Db, page: Page, n: nat, now: nat)
    requires n <= |page.entries| && PageReady(db0, db, page)
    requires InsertWindows(db0, db, page, n, now).Commit?
    ensures var after := InsertWindows(db0, db, page, n, now).db;
      && WindowsStep(db.windows, db.nextWindow, db.sent, after.windows, after.nextWindow, after.sent)
      && OnlyFail(db.attempts, after.attempts) && db.windows.Keys <= after.windows.Keys && after.auths == db.auths
      && after.sent == db.sent
  {
    NoStep(db);
    hide Inv, InsertWindow, WindowsStep, OnlyFail;
    if n > 0 {
      InsertWindowsSteps(db0, db, page, n - 1, now);
      InsertWindowsKeeps(db0, db, page, n - 1, now);
      var rest := InsertWindows(db0, db, page, n - 1, now);
      var e := page.entries[n - 1];
      if IsFresh(db0.messages, page.entries, n - 1) {
        var before := AddImages(rest.db, e);
        var sources := KeysOf(AddedEntries(db0.messages, page.entries, n - 1));
        OtherTablesKeep(rest.db, before);
        InsertWindowSteps(before, page.generation, e, sources, now);
        var after := InsertWindow(before, page.generation, e, sources, now).db;
        WindowsChain(db, before, after);
        OnlyFailTwice(db.attempts, before.attempts, after.attempts);
      }
    } else {
      OnlyFailNothing(db.attempts);
    }
  }

  lemma OnlyFailNothing(attempts: map<AttemptKey, Attempt>)
    ensures OnlyFail(attempts, attempts)
  {}

  lemma PollSteps(db: Db, page: Page, now: nat)
    requires Inv(db)
    ensures StepOk(db, After(db, CommitPage(db, page, now)))
    ensures After(db, CommitPage(db, page, now)).auths == db.auths
  {
    NoStep(db);
    hide Inv, SameIdentity, PageError, InsertAll, InsertWindows, AddedEntries, Finish, Deliverable,
      MessagesStep, AttemptsStep, WindowsStep, AuthsStep, SentStep, OnlyFail, Absorbs;
    var txn := CommitPage(db, page, now);
    if txn.Commit? {
      StoredReady(db, page, now);
      var stored, n := InsertAll(db, Arrivals(page), now), |page.entries|;
      InsertAllSteps(db, Arrivals(page), now);
      InsertAllGrows(db, Arrivals(page), now);
      InsertWindowsSteps(db, stored, page, n, now);
      InsertWindowsKeeps(db, stored, page, n, now);
      var windowed := InsertWindows(db, stored, page, n, now).db;
      var moved := MoveCursor(windowed, page.account, page.nextCursor);
      var conv, added := ConversationOf(db, page.account), AddedEntries(db.messages, page.entries, n);
      FinishAbsorbs(moved, conv, added, now);
      FinishElsewhere(moved, conv, added, now);
      ThenAbsorbs(db.inbox, db.messages, stored.inbox, stored.messages, txn.db.messages);
      OnlyFailSteps(db, windowed.attempts);
    }
  }
}
