/** What the reservations of an open window hold beyond its pending attempts. */
module Reservations {
  import opened Basics
  import opened Tables
  import opened PageOrder
  import opened Ledger
  import opened Inbox
  import opened PageCommit
  import opened Authorization
  import opened Events
  import opened Invariants
  import opened InboxProofs
  import opened LedgerProofs
  import opened PageProofs
  import opened Steps
  import opened Runs
  import opened Safety

  // ---------------------------------------------------------------- the relation

  /** An open window was open before with the same slack, or is new with none. */
  ghost predicate SlackAt(windows: map<WindowId, Window>, attempts: map<AttemptKey, Attempt>,
                          windows': map<WindowId, Window>, attempts': map<AttemptKey, Attempt>, w: WindowId)
  {
    w in windows' && windows'[w].state == Open ==>
      if w in windows then
        && windows[w].state == Open
        && windows'[w].reserved - |PendingOf(attempts', w)| == windows[w].reserved - |PendingOf(attempts, w)|
      else windows'[w].reserved == |PendingOf(attempts', w)|
  }

  ghost predicate SameSlack(db: Db, after: Db) {
    forall w :: SlackAt(db.windows, db.attempts, after.windows, after.attempts, w)
  }

  ghost predicate SamePending(attempts: map<AttemptKey, Attempt>, attempts': map<AttemptKey, Attempt>) {
    forall w :: PendingOf(attempts', w) == PendingOf(attempts, w)
  }

  lemma PendingSlack(db: Db, after: Db)
    requires after.windows == db.windows && SamePending(db.attempts, after.attempts)
    ensures SameSlack(db, after)
  {
    hide PendingOf;
  }

  lemma UntouchedSlack(db: Db, after: Db)
    requires after.windows == db.windows && after.attempts == db.attempts
    ensures SameSlack(db, after)
  {}

  /** One attempt changes that is not pending in a window, before or after. */
  lemma OnePending(attempts: map<AttemptKey, Attempt>, k: AttemptKey, a: Attempt)
    requires a.status == Pending ==> a.window.None?
    requires k in attempts && attempts[k].status == Pending ==> attempts[k].window.None?
    ensures SamePending(attempts, attempts[k := a])
  {
    forall w ensures PendingOf(attempts[k := a], w) == PendingOf(attempts, w) {}
  }

  /** One window and one of its attempts change together. */
  lemma OneSlack(db: Db, after: Db, id: WindowId, k: AttemptKey, a: Attempt)
    requires id in db.windows && id in after.windows
    requires after.windows == db.windows[id := after.windows[id]] && after.attempts == db.attempts[k := a]
    requires a.window == Some(id) && (k in db.attempts ==> db.attempts[k].window == Some(id))
    requires after.windows[id].state == db.windows[id].state
    requires after.windows[id].reserved - |PendingOf(after.attempts, id)| ==
      db.windows[id].reserved - |PendingOf(db.attempts, id)|
    ensures SameSlack(db, after)
  {
    forall w ensures SlackAt(db.windows, db.attempts, after.windows, after.attempts, w) {
      if w != id { assert PendingOf(after.attempts, w) == PendingOf(db.attempts, w); }
    }
  }

  // ---------------------------------------------------------------- reply attempts

  lemma PrepareSlack(db: Db, token: Token, persist: bool, now: nat)
    requires Inv(db)
    ensures SameSlack(db, After(db, PrepareReply(db, token, persist, now)))
  {
    var txn := PrepareReply(db, token, persist, now);
    hide Inv, SameSlack;
    if txn.Commit? {
      PrepareShape(db, token, persist, now);
      hide PrepareReply;
      var id, key := db.sessions[token].window.value, txn.value.key;
      SessionFacts(db, token);
      NewSizes(db, key, txn.db.attempts[key], id);
      assert db.windows[id := db.windows[id]] == db.windows;
      OneSlack(db, txn.db, id, key, txn.db.attempts[key]);
    } else {
      UntouchedSlack(db, db);
    }
  }

  lemma StartSlack(db: Db, token: Token, key: AttemptKey, now: nat)
    requires Inv(db)
    ensures SameSlack(db, After(db, StartReply(db, token, key, now)))
  {
    var txn := StartReply(db, token, key, now);
    hide Inv, SessionError, SendingIn, SameSlack;
    SessionFound(db, token, now);
    if txn.Commit? {
      var id := db.sessions[token].window.value;
      PendingSizes(db, key, txn.db.attempts[key], id);
      OneSlack(db, txn.db, id, key, txn.db.attempts[key]);
    } else {
      UntouchedSlack(db, db);
    }
  }

  lemma ReleaseSlack(db: Db, key: AttemptKey, expired: bool, now: nat)
    requires Inv(db)
    ensures SameSlack(db, After(db, ReleasePending(db, key, expired, now)))
  {
    var txn := ReleasePending(db, key, expired, now);
    hide Inv, SameSlack;
    if txn.Commit? && txn.value {
      var id := db.attempts[key].window.value;
      PendingSizes(db, key, txn.db.attempts[key], id);
      OneSlack(db, txn.db, id, key, txn.db.attempts[key]);
    } else {
      UntouchedSlack(db, db);
    }
  }

  lemma SystemSendSlack(db: Db, key: MessageKey, origin: Origin, now: nat)
    requires Inv(db)
    ensures SameSlack(db, After(db, StartSystem(db, key, origin, now)))
  {
    var txn := StartSystem(db, key, origin, now);
    hide Inv, NextIndex, SendingIn, FindSource, SameSlack;
    if txn.Commit? {
      var id := SourceWindow(db, key).value;
      assert txn.value !in db.attempts;
      NewSizes(db, txn.value, txn.db.attempts[txn.value], id);
      OneSlack(db, txn.db, id, txn.value, txn.db.attempts[txn.value]);
    } else {
      UntouchedSlack(db, db);
    }
  }

  lemma RecoverSlack(db: Db, now: nat)
    requires Inv(db)
    ensures SameSlack(db, After(db, RecoverPending(db, now)))
  {
    hide Inv;
    var after := After(db, RecoverPending(db, now));
    if RecoverPending(db, now).Commit? {
      forall w ensures SlackAt(db.windows, db.attempts, after.windows, after.attempts, w) {
        RecoverSlackAt(db, now, w);
      }
    }
  }

  lemma RecoverSlackAt(db: Db, now: nat, w: WindowId)
    requires Inv(db) && RecoverPending(db, now).Commit?
    ensures var after := RecoverPending(db, now).db; SlackAt(db.windows, db.attempts, after.windows, after.attempts, w)
  {
    hide Inv;
    var after := RecoverPending(db, now).db;
    forall k | k in after.attempts && after.attempts[k].window == Some(w) ensures after.attempts[k].status != Pending {
      AttemptFacts(db, k);
    }
    assert PendingOf(after.attempts, w) == {};
    if w in db.windows { WindowFacts(db, w); }
  }

  // ---------------------------------------------------------------- retirement

  /** Windows outside `ws` keep their pending attempts; those inside are not open any more. */
  lemma RetireSlack(db: Db, ws: set<WindowId>, state: WindowState, reason: Reason, now: nat, w: WindowId)
    requires state != Open
    ensures var after := RetireWindows(db, ws, state, reason, now);
      SlackAt(db.windows, db.attempts, after.windows, after.attempts, w)
  {
    var after := RetireWindows(db, ws, state, reason, now);
    hide CloseSessions;
    if w !in ws { assert PendingOf(after.attempts, w) == PendingOf(db.attempts, w); }
  }

  lemma RotateSlack(db: Db, account: string, owner: string, generation: nat, now: nat)
    ensures SameSlack(db, After(db, RotateAccount(db, account, owner, generation, now)))
  {
    hide RetireWindows, OpenWindowsOf, SlackAt;
    var after := After(db, RotateAccount(db, account, owner, generation, now));
    forall w ensures SlackAt(db.windows, db.attempts, after.windows, after.attempts, w) {
      RetireSlack(db, OpenWindowsOf(db.windows, account), Cancelled, GenerationChanged, now, w);
      SameSlackAt(db, w);
    }
  }

  lemma SameSlackAt(db: Db, w: WindowId)
    ensures SlackAt(db.windows, db.attempts, db.windows, db.attempts, w)
  {}

  /** Rows of other windows are dropped; every pending attempt of an open window stays. */
  lemma DropSlackAt(windows: map<WindowId, Window>, attempts: map<AttemptKey, Attempt>,
                    windows': map<WindowId, Window>, attempts': map<AttemptKey, Attempt>, w: WindowId)
    requires w in windows' ==> w in windows && windows'[w] == windows[w]
    requires w in windows' && windows[w].state == Open ==> PendingOf(attempts', w) == PendingOf(attempts, w)
    ensures SlackAt(windows, attempts, windows', attempts', w)
  {}

  lemma SlackTwice(db: Db, mid: Db, after: Db, w: WindowId)
    requires SlackAt(db.windows, db.attempts, mid.windows, mid.attempts, w)
    requires SlackAt(mid.windows, mid.attempts, after.windows, after.attempts, w)
    requires w in after.windows && w in db.windows ==> w in mid.windows
    ensures SlackAt(db.windows, db.attempts, after.windows, after.attempts, w)
  {
    hide PendingOf;
  }

  lemma DeleteSlack(db: Db, account: string, now: nat)
    requires Inv(db)
    ensures SameSlack(db, After(db, DeleteAccount(db, account, now)))
  {
    hide Inv, SlackAt, RetireWindows, OpenWindowsOf;
    var txn := DeleteAccount(db, account, now);
    forall w ensures SlackAt(db.windows, db.attempts, After(db, txn).windows, After(db, txn).attempts, w) {
      if txn.Commit? {
        DeleteSlackAt(db, account, now, w);
      } else {
        SameSlackAt(db, w);
      }
    }
  }

  lemma DeletePending(gone: Db, after: Db, account: string, w: WindowId)
    requires Inv(gone) && w in gone.windows && gone.windows[w].conv.account != account
    requires forall k :: k in after.attempts <==> k in gone.attempts && !OfAccount(gone.attempts[k].conv, account)
    requires forall k :: k in after.attempts ==> after.attempts[k] == gone.attempts[k]
    ensures PendingOf(after.attempts, w) == PendingOf(gone.attempts, w)
  {
    hide Inv;
    forall k | k in PendingOf(gone.attempts, w) ensures k in PendingOf(after.attempts, w) { AttemptFacts(gone, k); }
  }

  lemma DeleteSlackAt(db: Db, account: string, now: nat, w: WindowId)
    requires Inv(db) && DeleteAccount(db, account, now).Commit?
    ensures var after := DeleteAccount(db, account, now).db;
      SlackAt(db.windows, db.attempts, after.windows, after.attempts, w)
  {
    var ws := OpenWindowsOf(db.windows, account);
    var gone, after := RetireWindows(db, ws, Cancelled, AccountDeleted, now), DeleteAccount(db, account, now).db;
    RetireSlack(db, ws, Cancelled, AccountDeleted, now, w);
    RetireKeeps(db, ws, Cancelled, AccountDeleted, now);
    DeleteShape(gone, account);
    hide Inv, SlackAt, RetireWindows, OpenWindowsOf, DeleteAccount, WithoutAccount, OfAccount, PendingOf;
    if w in after.windows { DeletePending(gone, after, account, w); }
    DropSlackAt(gone.windows, gone.attempts, after.windows, after.attempts, w);
    SlackTwice(db, gone, after, w);
  }

  lemma RetainSlack(db: Db, now: nat)
    ensures SameSlack(db, After(db, Cleanup(db, now)))
  {
    RetentionShape(db, now);
    CleanupShape(db, now);
    hide Cleanup, Retention, SlackAt;
    var after := After(db, Cleanup(db, now));
    forall w ensures SlackAt(db.windows, db.attempts, after.windows, after.attempts, w) {
      if Cleanup(db, now).Commit? { RetainSlackAt(db, now, w); }
      SameSlackAt(db, w);
    }
  }

  lemma RetainSlackAt(db: Db, now: nat, w: WindowId)
    ensures var retained := Retention(db, now);
      SlackAt(db.windows, db.attempts, KeptWindows(retained, now), retained.attempts, w)
  {
    var retained := Retention(db, now);
    assert PendingOf(retained.attempts, w) == PendingOf(db.attempts, w);
    hide Outstanding, CleanMessages, CleanSessions, Referenced;
  }

  // ---------------------------------------------------------------- pages

  lemma SupersedeSlack(db: Db, conv: Conversation, now: nat, w: WindowId)
    requires Inv(db)
    ensures var ready := Supersede(db, conv, now);
      && SlackAt(db.windows, db.attempts, ready.windows, ready.attempts, w)
      && ready.windows.Keys == db.windows.Keys && ready.nextWindow == db.nextWindow
      && OnlyFail(db.attempts, ready.attempts)
  {
    SupersedeSteps(db, conv, now);
    hide Inv, SlackAt, RetireWindows, OnlyFail, WindowsStep;
    if OpenWindow(db, conv).Some? {
      RetireSlack(db, {OpenWindow(db, conv).value}, Superseded, SupersededByNewer, now, w);
    } else {
      SameSlackAt(db, w);
    }
  }

  lemma AddWindowSlack(db: Db, x: Window, w: WindowId)
    requires db.nextWindow !in db.windows && x.reserved == 0 && PendingOf(db.attempts, db.nextWindow) == {}
    ensures SlackAt(db.windows, db.attempts, AddWindow(db, x).windows, AddWindow(db, x).attempts, w)
  {
    hide PendingOf;
  }

  lemma InsertWindowSlack(db: Db, generation: nat, e: Entry, pageSources: set<MessageKey>, now: nat, w: WindowId)
    requires Inv(db) && KeyOf(e) in db.messages && InsertWindow(db, generation, e, pageSources, now).Commit?
    ensures var after := InsertWindow(db, generation, e, pageSources, now).db;
      && SlackAt(db.windows, db.attempts, after.windows, after.attempts, w)
      && (w in db.windows ==> w in after.windows)
  {
    hide Inv, BecomesOpen, Supersede, SlackAt, OnlyFail;
    var opens := BecomesOpen(db, e, pageSources);
    var ready := if opens then Supersede(db, e.conv, now) else db;
    if opens { SupersedeSlack(db, e.conv, now, w); } else { SameSlackAt(db, w); }
    NewWindowPending(db, ready);
    var x := NewWindow(generation, e, db.messages[KeyOf(e)].inboxSeq, if opens then Open else Superseded, now);
    AddWindowSlack(ready, x, w);
    SlackTwice(db, ready, AddWindow(ready, x), w);
  }

  /** Nothing is pending for a window that does not exist yet. */
  lemma NewWindowPending(db: Db, ready: Db)
    requires Inv(db) && (ready == db || OnlyFail(db.attempts, ready.attempts))
    ensures PendingOf(ready.attempts, db.nextWindow) == {} && db.nextWindow !in db.windows
  {
    WindowBound(db);
    hide Inv;
    forall k | k in ready.attempts ensures ready.attempts[k].window != Some(db.nextWindow) { AttemptFacts(db, k); }
  }

  lemma {:induction false} InsertWindowsSlack(db0: Db, db: Db, page: Page, n: nat, now: nat, w: WindowId)
    requires n <= |page.entries| && PageReady(db0, db, page)
    requires InsertWindows(db0, db, page, n, now).Commit?
    ensures var after := InsertWindows(db0, db, page, n, now).db;
      && SlackAt(db.windows, db.attempts, after.windows, after.attempts, w)
      && (w in db.windows ==> w in after.windows)
  {
    hide Inv, InsertWindow, SlackAt, KnownDuplicate, IsFresh;
    if n > 0 {
      InsertWindowsSlack(db0, db, page, n - 1, now, w);
      InsertWindowsKeeps(db0, db, page, n - 1, now);
      var rest := InsertWindows(db0, db, page, n - 1, now);
      var e := page.entries[n - 1];
      if IsFresh(db0.messages, page.entries, n - 1) {
        var before := AddImages(rest.db, e);
        var sources := KeysOf(AddedEntries(db0.messages, page.entries, n - 1));
        OtherTablesKeep(rest.db, before);
        InsertWindowSlack(before, page.generation, e, sources, now, w);
        SlackTwice(db, before, InsertWindow(before, page.generation, e, sources, now).db, w);
      }
    } else {
      SameSlackAt(db, w);
    }
  }

  lemma PollSlack(db: Db, page: Page, now: nat)
    requires Inv(db)
    ensures SameSlack(db, After(db, CommitPage(db, page, now)))
  {
    var txn := CommitPage(db, page, now);
    if txn.Commit? {
      PollTables(db, page, now);
      hide Inv, SlackAt, CommitPage, InsertWindows;
      StoredReady(db, page, now);
      InsertAllGrows(db, Arrivals(page), now);
      forall w ensures SlackAt(db.windows, db.attempts, txn.db.windows, txn.db.attempts, w) {
        InsertWindowsSlack(db, InsertAll(db, Arrivals(page), now), page, |page.entries|, now, w);
      }
    } else {
      UntouchedSlack(db, db);
    }
  }

  /** A committed page leaves the windows and attempts as the loop over its entries did. */
  lemma PollTables(db: Db, page: Page, now: nat)
    requires Inv(db) && CommitPage(db, page, now).Commit?
    ensures CursorMatches(db, page.account, page.generation, page.expectedCursor)
    ensures PageError(page.entries, ConversationOf(db, page.account), page.expectedCursor).None?
    ensures SameIdentity(db, Arrivals(page))
    ensures var windowed := InsertWindows(db, InsertAll(db, Arrivals(page), now), page, |page.entries|, now);
      && windowed.Commit?
      && CommitPage(db, page, now).db.windows == windowed.db.windows
      && CommitPage(db, page, now).db.attempts == windowed.db.attempts
  {
    hide Inv, SameIdentity, PageError, InsertAll, InsertWindows, AddedEntries, Finish, Deliverable;
    var windowed := InsertWindows(db, InsertAll(db, Arrivals(page), now), page, |page.entries|, now);
    var moved := MoveCursor(windowed.db, page.account, page.nextCursor);
    FinishElsewhere(moved, ConversationOf(db, page.account), AddedEntries(db.messages, page.entries, |page.entries|),
      now);
  }

  // ---------------------------------------------------------------- the other transactions

  lemma EvaluateSlack(db: Db, e: Evaluation, peer: string, now: nat)
    requires Inv(db) && (e.key in db.messages ==> db.messages[e.key].status == Received)
    ensures SameSlack(db, After(db, Evaluate(db, e, peer, now)))
  {
    EvaluateSteps(db, e, peer, now);
    EvaluatePending(db, e, peer, now);
    hide Inv, StillStep, AuthsStep, Evaluate;
    PendingSlack(db, After(db, Evaluate(db, e, peer, now)));
  }

  lemma EvaluatePending(db: Db, e: Evaluation, peer: string, now: nat)
    requires Inv(db) && (e.key in db.messages ==> db.messages[e.key].status == Received)
    ensures SamePending(db.attempts, After(db, Evaluate(db, e, peer, now)).attempts)
  {
    hide Inv, Step, Outcome, PendingOf;
    var k := AttemptKey(e.key, 0);
    if k !in db.attempts && e.key in db.messages {
      OnePending(db.attempts, k, KfAttempt(db.messages[e.key].conv, AuthorizationNotice, Pending, now));
    }
  }

  lemma AgentSendSlack(db: Db, token: Token, now: nat)
    ensures SameSlack(db, After(db, ReserveAgentSend(db, token, now)))
  {
    hide SessionUsable, NextIndex, PendingOf;
    var txn := ReserveAgentSend(db, token, now);
    if txn.Commit? { OnePending(db.attempts, txn.value, txn.db.attempts[txn.value]); }
    PendingSlack(db, After(db, txn));
  }

  lemma NoticeSlack(db: Db, key: MessageKey, now: nat)
    ensures SameSlack(db, After(db, ReserveQueueNotice(db, key, now)))
  {
    hide NextIndex, PendingOf;
    var txn := ReserveQueueNotice(db, key, now);
    if txn.Commit? && txn.db != db {
      var k := AttemptKey(key, NextIndex(db.attempts, key, MAX_ATTEMPTS));
      OnePending(db.attempts, k, txn.db.attempts[k]);
    }
    PendingSlack(db, After(db, txn));
  }

  lemma NextSendSlack(db: Db, key: AttemptKey, now: nat)
    requires Inv(db)
    ensures SameSlack(db, After(db, BeginSend(db, key, now)))
  {
    hide Inv, SendingIn, PendingOf;
    var txn := BeginSend(db, key, now);
    if txn.Commit? {
      AttemptFacts(db, key);
      OnePending(db.attempts, key, txn.db.attempts[key]);
    }
    PendingSlack(db, After(db, txn));
  }

  /** An attempt on the wire gets its outcome and its message may settle. */
  lemma OutcomeSlack(db: Db, key: AttemptKey, a: Attempt, now: nat)
    requires key in db.attempts && db.attempts[key].status != Pending && a.status != Pending
    ensures SameSlack(db, Settle(db.(attempts := db.attempts[key := a]), key.source, now))
  {
    var changed := db.(attempts := db.attempts[key := a]);
    SettleOnly(changed, key.source, now);
    OnePending(db.attempts, key, a);
    hide Settle, PendingOf;
    PendingSlack(db, Settle(changed, key.source, now));
  }

  lemma FinishSlack(db: Db, key: AttemptKey, status: SendStatus, providerId: string, reason: Reason, now: nat)
    requires status in {Accepted, Uncertain}
    ensures SameSlack(db, After(db, FinishSending(db, key, status, providerId, reason, now)))
  {
    hide Settle, SameSlack, IdTaken;
    UntouchedSlack(db, db);
    if key in db.attempts && db.attempts[key].status == Sending {
      OutcomeSlack(db, key, db.attempts[key].(
        status := status, providerMessageId := providerId, reason := reason, updatedAt := now), now);
    }
  }

  lemma RefuseSlack(db: Db, key: AttemptKey, code: string, now: nat)
    ensures SameSlack(db, After(db, FailSend(db, key, code, now)))
  {
    hide Settle, SameSlack;
    UntouchedSlack(db, db);
    if key in db.attempts && db.attempts[key].status == Sending {
      OutcomeSlack(db, key, db.attempts[key].(status := FailedSend, reason := ProviderError(code), updatedAt := now),
        now);
    }
  }

  lemma ApplySlack(db: Db, mid: Db, key: AttemptKey, failType: int, now: nat)
    requires SameSlack(db, mid) && key in mid.attempts && mid.attempts[key].status != Pending
    ensures SameSlack(db, ApplyFailure(mid, key, failType, now))
  {
    var after := ApplyFailure(mid, key, failType, now);
    OnePending(mid.attempts, key, after.attempts[key]);
    hide PendingOf;
    forall w ensures SlackAt(db.windows, db.attempts, after.windows, after.attempts, w) {
      assert SlackAt(db.windows, db.attempts, mid.windows, mid.attempts, w);
    }
  }

  lemma AcceptSlack(db: Db, key: AttemptKey, providerId: string, now: nat)
    ensures SameSlack(db, After(db, CompleteSend(db, key, providerId, now)))
  {
    UntouchedSlack(db, db);
    FinishSlack(db, key, Accepted, providerId, NoReason, now);
    var accepted := FinishSending(db, key, Accepted, providerId, NoReason, now);
    if accepted.Commit? {
      FinishKeys(db, key, Accepted, providerId, NoReason, now);
      hide FinishSending, SameSlack, ApplyFailure;
      if key in accepted.db.attempts && providerId in accepted.db.failures {
        ApplySlack(db, accepted.db, key, accepted.db.failures[providerId].failType, now);
      }
    }
  }

  lemma DeliveryFailedSlack(db: Db, providerId: string, failType: int, now: nat)
    ensures SameSlack(db, After(db, MarkMsgFailed(db, providerId, failType, now)))
  {
    UntouchedSlack(db, db);
    var observed := Observe(db, providerId, failType, now);
    UntouchedSlack(db, observed);
    hide SameSlack, ApplyFailure;
    if exists k :: AcceptedAs(db.attempts, k, providerId) {
      ApplySlack(db, observed, AcceptedKey(db.attempts, providerId), failType, now);
    }
  }

  lemma RestartSlack(db: Db, sources: seq<MessageKey>, now: nat)
    requires (set k | k in sources) == StartupSources(Interrupted(db, now))
    ensures SameSlack(db, After(db, RecoverStartup(db, sources, now)))
  {
    SettleAllOnly(Interrupted(db, now), sources, now);
    assert SamePending(db.attempts, Interrupted(db, now).attempts) by {
      forall w ensures PendingOf(Interrupted(db, now).attempts, w) == PendingOf(db.attempts, w) {}
    }
    assert Interrupted(db, now).windows == db.windows;
    hide SettleAll, Interrupted, PendingOf;
    PendingSlack(db, After(db, RecoverStartup(db, sources, now)));
  }

  // ---------------------------------------------------------------- suppression

  /** The pending attempts of a window that a suppression fails; their reservations stay. */
  ghost function Suppressed(db: Db, key: MessageKey, w: WindowId): set<AttemptKey> {
    set k | k in PendingOf(db.attempts, w) && k.source == key
  }

  lemma SuppressPending(db: Db, key: MessageKey, now: nat, w: WindowId)
    ensures PendingOf(After(db, Suppress(db, key, now)).attempts, w) ==
      PendingOf(db.attempts, w) - Suppressed(db, key, w)
  {
    var after := FailPending(db.attempts, MessageAttempts(db.attempts, key), SuppressedGroup, now);
    assert PendingOf(after, w) == PendingOf(db.attempts, w) - Suppressed(db, key, w);
  }

  lemma SuppressLeaks(db: Db, key: MessageKey, now: nat, w: WindowId)
    ensures var after := After(db, Suppress(db, key, now));
      && after.windows == db.windows
      && |PendingOf(after.attempts, w)| == |PendingOf(db.attempts, w)| - |Suppressed(db, key, w)|
  {
    SuppressPending(db, key, now, w);
    assert Suppressed(db, key, w) <= PendingOf(db.attempts, w);
    assert After(db, Suppress(db, key, now)).windows == db.windows;
    hide PendingOf, Suppressed, Suppress;
  }

  // ---------------------------------------------------------------- every event

  /** Events that write reply windows or attempts. */
  predicate WritesSends(e: Event) {
    e.Rotate? || e.Delete? || e.Poll? || e.Prepare? || e.Start? || e.Release? || e.Recover? || e.SystemSend? ||
    e.Evaluated? || e.AgentSend? || e.Notice? || e.NextSend? || e.Accept? || e.Lose? || e.Refuse? ||
    e.DeliveryFailed? || e.Restart? || e.Retain?
  }

  lemma LedgerEventSlack(db: Db, e: Event, now: nat)
    requires Inv(db) && Enabled(db, e, now) && WritesSends(e) && OfLedger(e)
    ensures SameSlack(db, Apply(db, e, now))
  {
    hide Inv, SameSlack, After, CommitPage, DeleteAccount, PrepareReply, RecoverPending, ReleasePending,
      RotateAccount, StartReply, StartSystem;
    match e
    case Rotate(account, owner, generation) => RotateSlack(db, account, owner, generation, now);
    case Delete(account) => DeleteSlack(db, account, now);
    case Poll(page) => PollSlack(db, page, now);
    case Prepare(token, persist) => PrepareSlack(db, token, persist, now);
    case Start(token, attempt) => StartSlack(db, token, attempt, now);
    case Release(attempt, expired) => ReleaseSlack(db, attempt, expired, now);
    case Recover => RecoverSlack(db, now);
    case SystemSend(key, origin) => SystemSendSlack(db, key, origin, now);
  }

  lemma SendEventSlack(db: Db, e: Event, now: nat)
    requires Inv(db) && Enabled(db, e, now) && WritesSends(e) && !OfLedger(e)
    ensures SameSlack(db, Apply(db, e, now))
  {
    hide Inv, SameSlack, After, BeginSend, Cleanup, CompleteSend, Evaluate, FailSend, FinishSending,
      MarkMsgFailed, RecoverStartup, ReserveAgentSend, ReserveQueueNotice;
    match e
    case Evaluated(evaluation, peer) => EvaluateSlack(db, evaluation, peer, now);
    case AgentSend(token) => AgentSendSlack(db, token, now);
    case Notice(key) => NoticeSlack(db, key, now);
    case NextSend(attempt) => NextSendSlack(db, attempt, now);
    case Accept(attempt, providerId) => AcceptSlack(db, attempt, providerId, now);
    case Lose(attempt, code) => FinishSlack(db, attempt, Uncertain, "", ProviderError(code), now);
    case Refuse(attempt, code) => RefuseSlack(db, attempt, code, now);
    case DeliveryFailed(providerId, failType) => DeliveryFailedSlack(db, providerId, failType, now);
    case Restart(sources) => RestartSlack(db, sources, now);
    case Retain => RetainSlack(db, now);
  }

  lemma QuietEvent(db: Db, e: Event, now: nat)
    requires Inv(db) && Enabled(db, e, now) && !WritesSends(e) && !OfMessages(e)
    ensures Apply(db, e, now).windows == db.windows && Apply(db, e, now).attempts == db.attempts
  {
    hide Inv, StepOk, QuietStep, StillStep, After, CloseSession, CloseSessionsOf, CompareAndSetCursor, CreateSession,
      IngestSyncPage, RegisterAccount;
    match e
    case Register(account, owner) => RegisterSteps(db, account, owner);
    case SetCursor(account, generation, expected, next) => SetCursorSteps(db, account, generation, expected, next);
    case Ingest(account, expected, next, arrivals) => IngestSteps(db, account, expected, next, arrivals, now);
    case OpenSession(token, key, boundary, ttl) => OpenSessionSteps(db, token, key, boundary, ttl, now);
    case EndSession(token) => EndSessionSteps(db, token, now);
    case EndSessions(key) => EndSessionsSteps(db, key, now);
  }

  lemma QuietMessageEvent(db: Db, e: Event, now: nat)
    requires Inv(db) && Enabled(db, e, now) && !WritesSends(e) && OfMessages(e) && !e.SuppressGroup?
    ensures Apply(db, e, now).windows == db.windows && Apply(db, e, now).attempts == db.attempts
  {
    hide Inv, StepOk, QuietStep, StillStep, After, BeginSteering, Claim, ConfirmSteered, DeferActive, FailInbound,
      Finalize,
      MarkCompleted, MarkIgnored, MarkPreparing, PromoteDeferred, RequeueSteering;
    match e
    case Promote(conv) => PromoteSteps(db, conv, now);
    case Claimed(key) => ClaimSteps(db, key, now);
    case Prepared(key, turnId) => PreparingSteps(db, key, turnId, now);
    case Ignore(key) => IgnoreSteps(db, key, now);
    case Complete(key) => CompleteSteps(db, key, now);
    case Steer(key, primary) => SteerSteps(db, key, primary, now);
    case Confirm(key, turnId) => ConfirmSteps(db, key, turnId, now);
    case Requeue(key, primary) => RequeueSteps(db, key, primary, now);
    case Fail(key) => FailSteps(db, key, now);
    case Defer(key) => DeferSteps(db, key, now);
    case Finished(key, steered, reported) => FinalizeSteps(db, key, steered, reported, now);
  }

  lemma ApplySlackKept(db: Db, e: Event, now: nat)
    requires Inv(db) && Enabled(db, e, now) && !e.SuppressGroup?
    ensures SameSlack(db, Apply(db, e, now))
  {
    hide Inv, Apply, Enabled, SameSlack;
    if WritesSends(e) {
      if OfLedger(e) { LedgerEventSlack(db, e, now); } else { SendEventSlack(db, e, now); }
    } else {
      if OfMessages(e) { QuietMessageEvent(db, e, now); } else { QuietEvent(db, e, now); }
      UntouchedSlack(db, Apply(db, e, now));
    }
  }

  // ---------------------------------------------------------------- runs

  /** The reservations that one event leaves with an open window although their attempts are gone. */
  ghost function LeakedBy(db: Db, t: Tick, w: WindowId): nat {
    if t.event.SuppressGroup? && w in db.windows && db.windows[w].state == Open
    then |Suppressed(db, t.event.key, w)| else 0
  }

  ghost function Leaked(run: seq<Tick>, w: WindowId): nat {
    if run == [] then 0
    else Leaked(run[..|run| - 1], w) + LeakedBy(Final(run[..|run| - 1]), run[|run| - 1], w)
  }

  lemma {:induction false} NothingLeakedYet(run: seq<Tick>, w: WindowId)
    requires w >= Final(run).nextWindow
    ensures Leaked(run, w) == 0
  {
    if run != [] {
      var init := run[..|run| - 1];
      LastTick(run);
      StepGrows(Final(init), Final(run));
      WindowBound(Final(init));
      hide Inv, Next, Final, StepOk;
      NothingLeakedYet(init, w);
    }
  }

  /** One event: the slack of an open window grows by what the event leaks. */
  lemma TickSlack(db: Db, t: Tick, w: WindowId)
    requires Inv(db)
    ensures var after := Next(db, t);
      w in after.windows && after.windows[w].state == Open ==>
        if w in db.windows then
          && db.windows[w].state == Open
          && after.windows[w].reserved - |PendingOf(after.attempts, w)|
               == db.windows[w].reserved - |PendingOf(db.attempts, w)| + LeakedBy(db, t, w)
        else after.windows[w].reserved == |PendingOf(after.attempts, w)|
  {
    hide Inv, Apply, PendingOf, Suppressed, Enabled;
    if Enabled(db, t.event, t.now) && t.event.SuppressGroup? {
      SuppressApplies(db, t.event.key, t.now);
      SuppressLeaks(db, t.event.key, t.now, w);
      hide Suppress;
    } else if Enabled(db, t.event, t.now) {
      ApplySlackKept(db, t.event, t.now);
      assert SlackAt(db.windows, db.attempts, Next(db, t).windows, Next(db, t).attempts, w);
    } else {
      SuppressEnabled(db, t.event, t.now);
    }
  }

  lemma SuppressApplies(db: Db, key: MessageKey, now: nat)
    ensures Enabled(db, SuppressGroup(key), now)
    ensures Apply(db, SuppressGroup(key), now) == After(db, Suppress(db, key, now))
  {}

  lemma SuppressEnabled(db: Db, e: Event, now: nat)
    ensures e.SuppressGroup? ==> Enabled(db, e, now)
  {}

  /**
   In every run the reservations of an open window are its pending attempts and those that were suppressed
   while it was open: suppression alone parts the two.
   */
  lemma {:induction false} ReservationsExact(run: seq<Tick>, w: WindowId)
    requires w in Final(run).windows && Final(run).windows[w].state == Open
    ensures Final(run).windows[w].reserved == |PendingOf(Final(run).attempts, w)| + Leaked(run, w)
  {
    if run != [] {
      var init, t := run[..|run| - 1], run[|run| - 1];
      LastTick(run);
      TickSlack(Final(init), t, w);
      if w !in Final(init).windows { NewWindowLater(run, w); }
      hide Inv, Next, Final, StepOk, PendingOf, LeakedBy;
      if w in Final(init).windows {
        ReservationsExact(init, w);
      } else {
        NothingLeakedYet(init, w);
        LeakedByNothing(Final(init), t, w);
      }
    }
  }

  lemma LeakedByNothing(db: Db, t: Tick, w: WindowId)
    ensures w !in db.windows ==> LeakedBy(db, t, w) == 0
  {}

  lemma NewWindowLater(run: seq<Tick>, w: WindowId)
    requires run != [] && w in Final(run).windows && w !in Final(run[..|run| - 1]).windows
    ensures w >= Final(run[..|run| - 1]).nextWindow
  {
    LastTick(run);
    hide Inv, Next, Final, StepOk;
    StepWindow(Final(run[..|run| - 1]), Final(run), w);
  }

  lemma {:induction false} LeakedNothing(run: seq<Tick>, w: WindowId)
    ensures Leaked(run, w) == 0 <==> forall n :: 0 <= n < |run| ==> LeakedBy(Final(run[..n]), run[n], w) == 0
  {
    hide Final, LeakedBy;
    if run != [] {
      var init := run[..|run| - 1];
      LeakedNothing(init, w);
      assert forall n :: 0 <= n < |init| ==> init[..n] == run[..n];
      if Leaked(run, w) == 0 {
        forall n | 0 <= n < |run| ensures LeakedBy(Final(run[..n]), run[n], w) == 0 {
          if n < |init| { assert LeakedBy(Final(init[..n]), init[n], w) == 0; }
        }
      } else if Leaked(init, w) != 0 {
        var n :| 0 <= n < |init| && LeakedBy(Final(init[..n]), init[n], w) != 0;
        assert LeakedBy(Final(run[..n]), run[n], w) != 0;
      } else {
        assert LeakedBy(Final(run[..|init|]), run[|init|], w) != 0;
      }
    }
  }

  /** Reservations equal pending attempts exactly if no suppression ever met a pending attempt of the open window. */
  lemma ReservationsEqualPending(run: seq<Tick>, w: WindowId)
    requires w in Final(run).windows && Final(run).windows[w].state == Open
    ensures Final(run).windows[w].reserved == |PendingOf(Final(run).attempts, w)| <==>
      forall n :: 0 <= n < |run| ==> LeakedBy(Final(run[..n]), run[n], w) == 0
  {
    hide Final, LeakedBy, PendingOf;
    ReservationsExact(run, w);
    LeakedNothing(run, w);
  }
}
