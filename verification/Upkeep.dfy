/**
 What the transactions that keep house mean for the rows: accounts, retired windows, recovery at startup, and
 cleanup.
 */
module Upkeep {
  import opened Basics
  import opened Tables
  import opened Ledger
  import opened Inbox
  import opened Invariants
  import opened InboxProofs
  import opened LedgerProofs
  import opened RetentionProofs
  import opened PageProofs
  import opened Events
  import opened Runs
  import opened Safety
  import opened Steps
  import opened PageCommit
  import opened Cursors
  import opened Outcomes

  // ---------------------------------------------------------------- accounts

  /** An account is registered exactly if its key and its owner are free. */
  lemma AccountIsRegistered(db: Db, account: string, owner: string)
    ensures var txn := RegisterAccount(db, account, owner);
      && (txn.Commit? <==>
            && account !in db.accounts
            && forall a :: a in db.accounts && db.accounts[a].owner == owner ==>
                 db.accounts[a].status != Active && db.accounts[a].status != Paused)
      && (txn.Commit? ==> txn.db == db.(accounts := db.accounts[account := Account(owner, 1, Active, "")]))
  {}

  /** No two registered accounts have the same owner, and all of them are active. */
  ghost predicate OwnersDistinct(accounts: map<string, Account>) {
    && (forall a :: a in accounts ==> accounts[a].status == Active)
    && (forall a, b :: a in accounts && b in accounts && accounts[a].owner == accounts[b].owner ==> a == b)
  }

  lemma RegisterKeepsOwners(db: Db, account: string, owner: string)
    requires OwnersDistinct(db.accounts)
    ensures OwnersDistinct(After(db, RegisterAccount(db, account, owner)).accounts)
  {}

  lemma RotateKeepsOwners(db: Db, account: string, owner: string, generation: nat, now: nat)
    requires OwnersDistinct(db.accounts)
    ensures OwnersDistinct(After(db, RotateAccount(db, account, owner, generation, now)).accounts)
  {
    hide RetireWindows, OpenWindowsOf;
    RetireAccounts(db, OpenWindowsOf(db.windows, account), now);
  }

  lemma MovedCursorKeepsOwners(accounts: map<string, Account>, account: string, cursor: string)
    requires OwnersDistinct(accounts) && account in accounts
    ensures OwnersDistinct(accounts[account := accounts[account].(cursor := cursor)])
  {}

  lemma TickKeepsOwners(db: Db, t: Tick)
    requires Inv(db) && OwnersDistinct(db.accounts)
    ensures OwnersDistinct(Next(db, t).accounts)
  {
    hide Inv, StepOk, StillStep, OwnersDistinct, CommitPage, DeleteAccount, RotateAccount, RegisterAccount,
      CompareAndSetCursor,
      CursorMatches;
    if Enabled(db, t.event, t.now) {
      var e := t.event;
      if e.Register? {
        RegisterKeepsOwners(db, e.account, e.owner);
      } else if e.Rotate? {
        RotateKeepsOwners(db, e.account, e.owner, e.generation, t.now);
      } else if e.Delete? {
        DeleteAccounts(db, e.account, t.now);
        FewerOwners(db.accounts, e.account);
      } else if e.SetCursor? {
        SetShape(db, e.account, e.generation, e.expected, e.next);
        if e.account in db.accounts { MovedCursorKeepsOwners(db.accounts, e.account, e.next); }
      } else if e.Poll? {
        if CommitPage(db, e.page, t.now).Commit? {
          PollAccounts(db, e.page, t.now);
          MatchedIsRegistered(db, e.page.account, e.page.generation, e.page.expectedCursor);
          MovedCursorKeepsOwners(db.accounts, e.page.account, e.page.nextCursor);
        }
      } else {
        ApplySteps(db, e, t.now);
        hide Apply;
      }
    }
  }

  lemma FewerOwners(accounts: map<string, Account>, account: string)
    requires OwnersDistinct(accounts)
    ensures OwnersDistinct(accounts - {account})
  {}

  lemma MatchedIsRegistered(db: Db, account: string, generation: nat, cursor: string)
    requires CursorMatches(db, account, generation, cursor)
    ensures account in db.accounts
  {}

  /** In every run no owner has two accounts. */
  lemma {:induction false} OwnersNeverShared(run: seq<Tick>)
    ensures OwnersDistinct(Final(run).accounts)
  {
    if run != [] {
      OwnersNeverShared(run[..|run| - 1]);
      Always(run[..|run| - 1]);
      TickKeepsOwners(Final(run[..|run| - 1]), run[|run| - 1]);
      hide Inv, OwnersDistinct, Next;
    }
  }

  // ---------------------------------------------------------------- windows

  /** The windows of the set change their state and hold no reservation. */
  ghost predicate RetiredWindows(before: map<WindowId, Window>, after: map<WindowId, Window>, ws: set<WindowId>,
                                 state: WindowState, now: nat) {
    && after.Keys == before.Keys
    && (forall w :: w in before && w in ws ==> after[w] == before[w].(state := state, reserved := 0, updatedAt := now))
    && (forall w :: w in before && w !in ws ==> after[w] == before[w])
  }

  /** A pending attempt through one of the windows. */
  predicate PendingThrough(a: Attempt, ws: set<WindowId>) {
    a.status == Pending && a.window.Some? && a.window.value in ws
  }

  /** Their pending attempts have failed, for the reason, and no others. */
  ghost predicate RetiredAttempts(before: map<AttemptKey, Attempt>, after: map<AttemptKey, Attempt>, ws: set<WindowId>,
                                  reason: Reason, now: nat) {
    && after.Keys == before.Keys
    && (forall k :: k in before && PendingThrough(before[k], ws) ==>
          after[k] == before[k].(status := FailedSend, reason := reason, updatedAt := now))
    && (forall k :: k in before && !PendingThrough(before[k], ws) ==> after[k] == before[k])
  }

  /** Retiring windows: they hold no reservation, their pending attempts fail, their sessions and tokens are gone. */
  ghost predicate Retires(db: Db, after: Db, ws: set<WindowId>, state: WindowState, reason: Reason, now: nat) {
    && after == db.(attempts := after.attempts, sessions := after.sessions, windows := after.windows,
         secrets := after.secrets, accounts := after.accounts)
    && RetiredWindows(db.windows, after.windows, ws, state, now)
    && RetiredAttempts(db.attempts, after.attempts, ws, reason, now)
    && Closes(db.sessions, after.sessions,
              set t | t in db.sessions && db.sessions[t].window.Some? && db.sessions[t].window.value in ws)
    && after.secrets == db.secrets - ws
  }

  lemma RetirementOfWindows(db: Db, ws: set<WindowId>, state: WindowState, reason: Reason, now: nat)
    requires forall w :: w in ws ==> w in db.windows && db.windows[w].state == Open
    ensures RetiredWindows(db.windows, RetireWindows(db, ws, state, reason, now).windows, ws, state, now)
  {
    hide FailPending, WindowAttempts, CloseSessions, WindowSessions;
  }

  lemma RetirementOfAttempts(db: Db, ws: set<WindowId>, state: WindowState, reason: Reason, now: nat)
    ensures RetiredAttempts(db.attempts, RetireWindows(db, ws, state, reason, now).attempts, ws, reason, now)
  {
    hide CloseSessions, WindowSessions;
  }

  lemma RetirementOfSessions(db: Db, ws: set<WindowId>, state: WindowState, reason: Reason, now: nat)
    requires now > 0
    ensures Closes(db.sessions, RetireWindows(db, ws, state, reason, now).sessions,
                   set t | t in db.sessions && db.sessions[t].window.Some? && db.sessions[t].window.value in ws)
  {
    hide FailPending, WindowAttempts;
  }

  lemma RetirementReaches(db: Db, ws: set<WindowId>, state: WindowState, reason: Reason, now: nat)
    requires now > 0 && forall w :: w in ws ==> w in db.windows && db.windows[w].state == Open
    ensures Retires(db, RetireWindows(db, ws, state, reason, now), ws, state, reason, now)
  {
    RetirementOfWindows(db, ws, state, reason, now);
    RetirementOfAttempts(db, ws, state, reason, now);
    RetirementOfSessions(db, ws, state, reason, now);
    hide FailPending, WindowAttempts, CloseSessions, WindowSessions, RetiredWindows, RetiredAttempts, Closes;
  }

  /** The open windows of an account. */
  function OpenOf(db: Db, account: string): set<WindowId> {
    set w | w in db.windows && db.windows[w].conv.account == account && db.windows[w].state == Open
  }

  /**
   An account is rotated exactly by its owner and from its present generation: the generation grows by one, its
   open windows are cancelled, and no other account is touched.
   */
  lemma AccountIsRotated(db: Db, account: string, owner: string, generation: nat, now: nat)
    requires now > 0
    ensures var txn := RotateAccount(db, account, owner, generation, now);
      && (txn.Commit? <==>
            account in db.accounts && db.accounts[account].owner == owner
              && db.accounts[account].generation == generation)
      && (txn.Commit? ==>
            && txn.db.accounts == db.accounts[account :=
                 db.accounts[account].(generation := generation + 1, status := Active)]
            && Retires(db, txn.db, OpenOf(db, account), Cancelled, GenerationChanged, now))
  {
    RetirementReaches(db, OpenOf(db, account), Cancelled, GenerationChanged, now);
    hide RetireWindows;
  }

  lemma RestOfDeletion(gone: Db, account: string)
    ensures var after := WithoutAccount(gone, account);
      && after == gone.(failures := after.failures, sessions := after.sessions, attempts := after.attempts,
           windows := after.windows, images := after.images, messages := after.messages, accounts := after.accounts)
      && (forall t :: t in after.sessions <==> t in gone.sessions && !OfAccount(gone.sessions[t].conv, account))
      && (forall t :: t in after.sessions ==> after.sessions[t] == gone.sessions[t])
      && (forall k :: k in after.images <==>
            k in gone.images && (k in gone.messages ==> !OfAccount(gone.messages[k].conv, account)))
      && (forall k :: k in after.images ==> after.images[k] == gone.images[k])
  {
    hide OfAccount;
  }

  /** The failure report is about an attempt of the account. */
  ghost predicate ReportsOn(db: Db, account: string, f: Failure) {
    f.matched.Some? && f.matched.value in db.attempts && OfAccount(db.attempts[f.matched.value].conv, account)
  }

  lemma ReportsOfDeletion(gone: Db, account: string)
    ensures var after := WithoutAccount(gone, account);
      && (forall f :: f in after.failures <==> f in gone.failures && !ReportsOn(gone, account, gone.failures[f]))
      && (forall f :: f in after.failures ==> after.failures[f] == gone.failures[f])
  {
    hide OfAccount;
  }

  /** A session, an image or a failure report that is not of the account. */
  ghost predicate Foreign(db: Db, after: Db, account: string) {
    && (forall t :: t in db.sessions && !OfAccount(db.sessions[t].conv, account) ==>
          t in after.sessions && after.sessions[t].source == db.sessions[t].source
          && (db.sessions[t].window.None? ==> after.sessions[t] == db.sessions[t]))
    && (forall k :: k in db.images && k in db.messages && !OfAccount(db.messages[k].conv, account) ==>
          k in after.images && after.images[k] == db.images[k])
    && (forall k :: k in after.images && k in db.messages ==> !OfAccount(db.messages[k].conv, account))
    && (forall f :: f in after.failures <==> f in db.failures && !ReportsOn(db, account, db.failures[f]))
    && after.inbox == db.inbox && after.auths == db.auths && after.cursors == db.cursors && after.sent == db.sent
  }

  lemma RetiredRest(db: Db, account: string, now: nat)
    ensures var gone := RetireWindows(db, OpenWindowsOf(db.windows, account), Cancelled, AccountDeleted, now);
      && gone == db.(attempts := gone.attempts, sessions := gone.sessions, windows := gone.windows,
            secrets := gone.secrets)
      && gone.attempts.Keys == db.attempts.Keys && gone.sessions.Keys == db.sessions.Keys
      && (forall k :: k in db.attempts ==> gone.attempts[k].conv == db.attempts[k].conv)
      && (forall t :: t in db.sessions ==>
            && gone.sessions[t].conv == db.sessions[t].conv && gone.sessions[t].source == db.sessions[t].source
            && (db.sessions[t].window.None? ==> gone.sessions[t] == db.sessions[t]))
  {
    hide OpenWindowsOf;
  }

  /** A deletion takes the images and the failure reports of the account with it, and nobody else's. */
  lemma DeletionTakesItsOwn(db: Db, account: string, now: nat)
    requires DeleteAccount(db, account, now).Commit?
    ensures Foreign(db, DeleteAccount(db, account, now).db, account)
    ensures DeleteAccount(db, account, now).Commit? <==> account in db.accounts
  {
    var gone := RetireWindows(db, OpenWindowsOf(db.windows, account), Cancelled, AccountDeleted, now);
    RetiredRest(db, account, now);
    RestOfDeletion(gone, account);
    ReportsOfDeletion(gone, account);
    hide RetireWindows, OpenWindowsOf, WithoutAccount, OfAccount;
  }

  // ---------------------------------------------------------------- startup

  /** Nothing is on the wire, and no session is live at any later time. */
  ghost predicate Quiet(db: Db) {
    && (forall k :: k in db.attempts ==> db.attempts[k].status != Sending)
    && (forall t :: t in db.sessions ==> NeverLive(db.sessions[t]))
  }

  /** The message was left in the middle of being steered, before any turn began. */
  predicate Unsent(m: Inbound) { m.status in {Steering, Steered} && m.turnId == "" }

  /** A message is settled or as before. */
  predicate SettledOrSame(m: Inbound, m': Inbound, now: nat) {
    || m' == m
    || (m.status in {Ready, Processing, Preparing}
        && m' == m.(status := Completed, payload := None, updatedAt := now))
  }

  lemma {:induction false} SettleAllRows(db: Db, keys: seq<MessageKey>, now: nat)
    ensures var after := SettleAll(db, keys, now);
      && after == db.(messages := after.messages) && after.messages.Keys == db.messages.Keys
      && forall k :: k in db.messages ==>
           && SettledOrSame(db.messages[k], after.messages[k], now)
           && (k !in keys ==> after.messages[k] == db.messages[k])
    decreases |keys|
  {
    if keys != [] {
      SettlesWhenDone(db, keys[0], now);
      SettleAllRows(Settle(db, keys[0], now), keys[1..], now);
      hide Settle, SettleAll, Done;
    }
  }

  /** No message of the customer behind this one still waits for an answer. */
  ghost predicate LastWord(messages: map<MessageKey, Inbound>, key: MessageKey)
    requires key in messages
  {
    forall k :: k in messages && messages[k].conv == messages[key].conv && messages[k].customer ==>
      || messages[k].inboxSeq <= messages[key].inboxSeq
      || messages[k].status in {Completed, Absorbed, Ignored, Suppressed}
  }

  /** The rows have only settled, so that no message waits that did not wait before. */
  ghost predicate OnlySettled(before: map<MessageKey, Inbound>, after: map<MessageKey, Inbound>, now: nat) {
    after.Keys == before.Keys && forall k :: k in before ==> SettledOrSame(before[k], after[k], now)
  }

  lemma LastWordStays(before: map<MessageKey, Inbound>, after: map<MessageKey, Inbound>, key: MessageKey, now: nat)
    requires key in before && OnlySettled(before, after, now) && LastWord(before, key)
    ensures LastWord(after, key)
  {}

  lemma SettleOnlySettles(db: Db, key: MessageKey, now: nat)
    ensures var after := Settle(db, key, now);
      && after == db.(messages := after.messages) && OnlySettled(db.messages, after.messages, now)
      && (forall k :: k in db.messages && k != key ==> after.messages[k] == db.messages[k])
  {
    SettlesWhenDone(db, key, now);
    if Done(db, key, now) {
      var after := Settle(db, key, now);
      SettledRow(db, key, now);
      hide Settle, Done;
    } else {
      hide Settle, Done;
    }
  }

  lemma SettledRow(db: Db, key: MessageKey, now: nat)
    requires Done(db, key, now)
    ensures Settle(db, key, now).messages
         == db.messages[key := db.messages[key].(status := Completed, payload := None, updatedAt := now)]
  {
    LaterCustomerIs(db.messages, key);
    hide LaterCustomer;
  }

  /** A message that is done stays so, or is completed, while others settle. */
  lemma DoneStays(db: Db, settled: MessageKey, key: MessageKey, now: nat)
    requires Done(db, key, now) && key != settled
    ensures Done(Settle(db, settled, now), key, now)
  {
    SettleOnlySettles(db, settled, now);
    hide Settle;
  }

  /** Every listed message that is done is completed. */
  lemma {:induction false} SettleAllCompletes(db: Db, keys: seq<MessageKey>, now: nat, key: MessageKey)
    requires key in keys && Done(db, key, now)
    ensures key in SettleAll(db, keys, now).messages && SettleAll(db, keys, now).messages[key].status == Completed
    decreases |keys|
  {
    if keys[0] == key {
      SettlesWhenDone(db, key, now);
      SettleAllRows(Settle(db, key, now), keys[1..], now);
      hide Settle, Done;
    } else {
      DoneStays(db, keys[0], key, now);
      hide Settle, Done;
      SettleAllCompletes(Settle(db, keys[0], now), keys[1..], now, key);
    }
  }

  /** What is completed was listed, was being worked on, has nothing outstanding, and the customer waits for no more. */
  lemma {:induction false} CompletedWasDone(db: Db, keys: seq<MessageKey>, now: nat, key: MessageKey)
    requires key in db.messages && SettleAll(db, keys, now).messages.Keys == db.messages.Keys
    requires SettleAll(db, keys, now).messages[key] != db.messages[key]
    ensures key in keys && LastWord(SettleAll(db, keys, now).messages, key)
    ensures forall k :: k in db.attempts && k.source == key ==> db.attempts[k].status !in {Pending, Sending}
    decreases |keys|
  {
    if keys != [] {
      var next := Settle(db, keys[0], now);
      SettleOnlySettles(db, keys[0], now);
      SettleAllRows(next, keys[1..], now);
      SettlesWhenDone(db, keys[0], now);
      if next.messages[key] != db.messages[key] {
        assert key == keys[0] && Done(db, key, now) && LastWord(db.messages, key);
        hide Settle, SettleAll, Done;
        LastWordStays(db.messages, next.messages, key, now);
        LastWordStays(next.messages, SettleAll(next, keys[1..], now).messages, key, now);
      } else {
        hide Settle, Done;
        CompletedWasDone(next, keys[1..], now, key);
      }
    }
  }

  /** What was on the wire is uncertain, and all sessions are closed. */
  ghost predicate Interrupts(db: Db, after: Db, now: nat) {
    && after.attempts.Keys == db.attempts.Keys
    && (forall k :: k in db.attempts && db.attempts[k].status == Sending ==>
          after.attempts[k] == db.attempts[k].(status := Uncertain, reason := StartupRecovery, updatedAt := now))
    && (forall k :: k in db.attempts && db.attempts[k].status != Sending ==> after.attempts[k] == db.attempts[k])
    && Closes(db.sessions, after.sessions, db.sessions.Keys)
  }

  lemma InterruptedIs(db: Db, now: nat)
    requires now > 0
    ensures Interrupts(db, Interrupted(db, now), now)
  {}

  lemma RequeueIs(db: Db, now: nat)
    ensures var after := RequeueUnsent(db, now);
      && after == db.(messages := after.messages) && after.messages.Keys == db.messages.Keys
      && forall k :: k in db.messages ==>
           if Unsent(db.messages[k]) then Waits(db.messages[k], after.messages[k])
             && after.messages[k].deferred == db.messages[k].deferred
           else after.messages[k] == db.messages[k]
  {}

  /** The attempt is on the wire, or was when an earlier process ended. */
  predicate WasOnTheWire(a: Attempt) { a.status == Sending || (a.status == Uncertain && a.reason == StartupRecovery) }

  /** The message's sends were interrupted by the end of the process. */
  predicate WasInterrupted(db: Db, key: MessageKey) {
    exists k :: k in db.attempts && k.source == key
      && WasOnTheWire(db.attempts[k])
  }

  lemma SourcesAre(db: Db, now: nat, key: MessageKey)
    ensures key in StartupSources(Interrupted(db, now)) <==> WasInterrupted(db, key)
  {
    var attempts := Interrupted(db, now).attempts;
    assert attempts.Keys == db.attempts.Keys;
    if WasInterrupted(db, key) {
      var k :| k in db.attempts && k.source == key
        && WasOnTheWire(db.attempts[k]);
      assert attempts[k].status == Uncertain && attempts[k].reason == StartupRecovery;
    }
    if key in StartupSources(Interrupted(db, now)) {
      var k :| k in attempts && attempts[k].status == Uncertain && attempts[k].reason == StartupRecovery
        && k.source == key;
      assert k in db.attempts;
    }
  }

  /** A message as recovery leaves it: interrupted steering waits again, and others settle or stay. */
  ghost predicate RecoveredRow(m: Inbound, m': Inbound, now: nat) {
    if Unsent(m) then Waits(m, m') && m'.deferred == m.deferred else SettledOrSame(m, m', now)
  }

  /**
   After recovery at startup nothing is on the wire and no session is ever live again; what was on the wire is
   uncertain; steering that never reached a turn waits again; nothing else changes but what settles.
   */
  lemma StartupIsQuiet(db: Db, sources: seq<MessageKey>, now: nat)
    requires now > 0 && (set k | k in sources) == StartupSources(Interrupted(db, now))
    ensures var after := RecoverStartup(db, sources, now).db;
      && after == db.(messages := after.messages, attempts := after.attempts, sessions := after.sessions)
      && Interrupts(db, after, now) && Quiet(after) && after.messages.Keys == db.messages.Keys
      && forall k :: k in db.messages ==> RecoveredRow(db.messages[k], after.messages[k], now)
  {
    InterruptedIs(db, now);
    SettleAllRows(Interrupted(db, now), sources, now);
    RequeueIs(SettleAll(Interrupted(db, now), sources, now), now);
    assert Interrupted(db, now).messages == db.messages;
    hide SettleAll, Interrupted, RequeueUnsent, StartupSources, Waits;
  }

  /** A message is done once the process was interrupted: nothing of it is pending, nothing later waits. */
  ghost predicate DoneAtStartup(db: Db, key: MessageKey) {
    && key in db.messages && db.messages[key].status in {Ready, Processing, Preparing}
    && (forall k :: k in db.attempts && k.source == key ==> db.attempts[k].status != Pending)
    && LastWord(db.messages, key)
  }

  lemma DoneAtStartupIs(db: Db, key: MessageKey, now: nat)
    requires now > 0
    ensures DoneAtStartup(db, key) ==> Done(Interrupted(db, now), key, now)
  {
    InterruptedIs(db, now);
    assert Interrupted(db, now).messages == db.messages;
    if DoneAtStartup(db, key) {
      var after := Interrupted(db, now);
      forall t | t in after.sessions ensures after.sessions[t].closedAt != 0 || after.sessions[t].expiresAt <= now {
        assert NeverLive(after.sessions[t]);
        assert !Live(now, after.sessions[t]);
      }
    }
  }

  /** An interrupted message that is done is completed at startup. */
  lemma StartupCompletes(db: Db, sources: seq<MessageKey>, now: nat, key: MessageKey)
    requires now > 0 && (set k | k in sources) == StartupSources(Interrupted(db, now))
    requires WasInterrupted(db, key) && DoneAtStartup(db, key)
    ensures var after := RecoverStartup(db, sources, now).db;
      key in after.messages && after.messages[key].status == Completed && after.messages[key].payload.None?
  {
    SourcesAre(db, now, key);
    assert key in set k | k in sources;
    DoneAtStartupIs(db, key, now);
    StartupIsQuiet(db, sources, now);
    SettleAllCompletes(Interrupted(db, now), sources, now, key);
    RequeueIs(SettleAll(Interrupted(db, now), sources, now), now);
    hide SettleAll, Interrupted, RequeueUnsent, StartupSources, Waits, Done, DoneAtStartup, WasInterrupted;
  }

  lemma LastWordRequeued(db: Db, key: MessageKey, now: nat)
    requires key in db.messages && LastWord(db.messages, key)
    ensures key in RequeueUnsent(db, now).messages && LastWord(RequeueUnsent(db, now).messages, key)
  {
    RequeueIs(db, now);
    hide RequeueUnsent;
  }

  /** Startup completes only interrupted messages with nothing pending, behind which the customer waits for no more. */
  lemma StartupCompletesOnly(db: Db, sources: seq<MessageKey>, now: nat, key: MessageKey)
    requires now > 0 && (set k | k in sources) == StartupSources(Interrupted(db, now))
    requires key in db.messages && db.messages[key].status != Completed
    requires key in RecoverStartup(db, sources, now).db.messages
    requires RecoverStartup(db, sources, now).db.messages[key].status == Completed
    ensures WasInterrupted(db, key) && LastWord(RecoverStartup(db, sources, now).db.messages, key)
    ensures forall k :: k in db.attempts && k.source == key ==> db.attempts[k].status != Pending
  {
    hide *;
    var interrupted := Interrupted(db, now);
    var settled := SettleAll(interrupted, sources, now);
    RecoverIs(db, sources, now);
    SettleAllRows(interrupted, sources, now);
    RequeuedKeys(settled, now);
    CompletedBefore(settled, now, key);
    CompletedWasDone(interrupted, sources, now, key);
    assert key in set k | k in sources;
    SourcesAre(db, now, key);
    LastWordRequeued(settled, key, now);
    NothingPending(db, now, key);
  }

  lemma RecoverIs(db: Db, sources: seq<MessageKey>, now: nat)
    requires (set k | k in sources) == StartupSources(Interrupted(db, now))
    ensures RecoverStartup(db, sources, now).Commit? && Interrupted(db, now).messages == db.messages
    ensures RecoverStartup(db, sources, now).db == RequeueUnsent(SettleAll(Interrupted(db, now), sources, now), now)
  {}

  lemma RequeuedKeys(db: Db, now: nat)
    ensures RequeueUnsent(db, now).messages.Keys == db.messages.Keys
  {}

  lemma CompletedBefore(db: Db, now: nat, key: MessageKey)
    requires key in db.messages && key in RequeueUnsent(db, now).messages
    requires RequeueUnsent(db, now).messages[key].status == Completed
    ensures db.messages[key].status == Completed
  {}

  lemma NothingPending(db: Db, now: nat, key: MessageKey)
    requires forall k :: k in Interrupted(db, now).attempts && k.source == key ==>
      Interrupted(db, now).attempts[k].status !in {Pending, Sending}
    ensures forall k :: k in db.attempts && k.source == key ==> db.attempts[k].status != Pending
  {}

  // ---------------------------------------------------------------- cleanup

  const HOUR: nat := 3_600_000
  const WEEK: nat := 604_800_000
  const MONTH: nat := 2_592_000_000

  /** A final message, unchanged for a week, keeps no payload; every other message is as before. */
  ghost predicate CleanedMessages(before: map<MessageKey, Inbound>, after: map<MessageKey, Inbound>, now: nat) {
    after.Keys == before.Keys && forall k :: k in before ==>
      after[k] == if before[k].status in {Completed, Absorbed, Failed, Ignored, Suppressed}
        && before[k].updatedAt + WEEK < now
                  then before[k].(payload := None) else before[k]
  }

  predicate Settled(a: Attempt) { a.status == Accepted || a.status == FailedSend }

  /** An accepted or failed attempt goes after a month, and loses its metadata after a week. */
  ghost predicate CleanedAttempts(before: map<AttemptKey, Attempt>, after: map<AttemptKey, Attempt>, now: nat) {
    && (forall k :: k in after <==> k in before && !(Settled(before[k]) && before[k].updatedAt + MONTH < now))
    && forall k :: k in after ==>
         after[k] == if Settled(before[k]) && before[k].updatedAt + WEEK < now
                     then before[k].(windowIndex := None) else before[k]
  }

  /** A session goes once it has expired, or an hour after it was closed. */
  ghost predicate CleanedSessions(before: map<Token, Session>, after: map<Token, Session>, now: nat) {
    && (forall t :: t in after <==>
          t in before && before[t].expiresAt >= now && (before[t].closedAt == 0 || before[t].closedAt + HOUR >= now))
    && forall t :: t in after ==> after[t] == before[t]
  }

  /** An expired open window that nothing needs any more. */
  ghost predicate Lapsed(db: Db, after: Db, w: WindowId, now: nat)
    requires w in db.windows
  {
    var window := db.windows[w];
    && window.state == Open && window.expiresAt <= now
    && (forall k :: k in after.attempts && after.attempts[k].window == Some(w) ==>
          after.attempts[k].status != Pending && after.attempts[k].status != Sending)
    && (window.source in db.messages ==>
          db.messages[window.source].status in {Completed, Absorbed, Ignored, Suppressed})
  }

  /** The window as cleanup leaves it, while the given attempts are kept. */
  ghost function LapsedRow(db: Db, attempts: map<AttemptKey, Attempt>, w: WindowId, now: nat): Window
    requires w in db.windows
  {
    if Lapsed(db, db.(attempts := attempts), w, now)
    then db.windows[w].(state := Closed, reserved := 0, updatedAt := now) else db.windows[w]
  }

  ghost predicate Kept(db: Db, after: Db, w: WindowId, now: nat)
    requires w in db.windows
  {
    || db.windows[w].state == Open || db.windows[w].updatedAt + MONTH >= now
    || exists k :: k in after.attempts && after.attempts[k].window == Some(w)
  }

  /** A lapsed window is closed; a retired one goes after a month unless an attempt that is kept belongs to it. */
  ghost predicate CleanedWindows(db: Db, after: Db, now: nat) {
    && (forall w :: w in after.windows <==> w in db.windows && Kept(db, after, w, now))
    && (forall w :: w in after.windows ==> after.windows[w] == LapsedRow(db, after.attempts, w, now))
    && (forall w :: w in after.secrets <==> w in db.secrets && w in after.windows && db.windows[w].expiresAt > now)
  }

  lemma CleanupOfRows(db: Db, now: nat)
    ensures var retained := Retention(db, now);
      && CleanedMessages(db.messages, retained.messages, now) && CleanedAttempts(db.attempts, retained.attempts, now)
      && CleanedSessions(db.sessions, retained.sessions, now)
      && (forall f :: f in retained.failures <==> f in db.failures && db.failures[f].observedAt + MONTH >= now)
      && (forall f :: f in retained.failures ==> retained.failures[f] == db.failures[f])
      && retained == db.(messages := retained.messages, attempts := retained.attempts, sessions := retained.sessions,
           failures := retained.failures, windows := retained.windows, secrets := retained.secrets)
  {
    hide CloseExpired;
  }

  lemma LapsedIs(db: Db, attempts: map<AttemptKey, Attempt>, messages: map<MessageKey, Inbound>, w: WindowId, now: nat)
    requires w in db.windows && CleanedMessages(db.messages, messages, now)
    ensures Closable(attempts, messages, w, db.windows[w], now) <==> Lapsed(db, db.(attempts := attempts), w, now)
  {
    var source := db.windows[w].source;
    if source in messages { ActiveOrOver(messages[source].status); }
  }

  lemma CleanupOfWindows(db: Db, now: nat)
    ensures var retained := Retention(db, now);
      && retained.windows.Keys == db.windows.Keys
      && forall w :: w in db.windows ==>
           retained.windows[w] == LapsedRow(db, retained.attempts, w, now)
  {
    CleanupOfRows(db, now);
    var retained := Retention(db, now);
    forall w | w in db.windows ensures Closable(retained.attempts, retained.messages, w, db.windows[w], now)
      <==> Lapsed(db, db.(attempts := retained.attempts), w, now)
    {
      LapsedIs(db, retained.attempts, retained.messages, w, now);
    }
    hide Closable, Lapsed, CleanMessages, CleanAttempts, CleanSessions;
  }

  lemma KeptIs(db: Db, retained: Db, now: nat)
    requires retained.windows.Keys == db.windows.Keys
    requires forall w :: w in db.windows ==> retained.windows[w] == LapsedRow(db, retained.attempts, w, now)
    ensures forall w :: w in KeptWindows(retained, now) <==> w in db.windows && Kept(db, retained, w, now)
    ensures forall w :: w in KeptWindows(retained, now) ==> KeptWindows(retained, now)[w] == retained.windows[w]
  {
    forall w | w in db.windows ensures Referenced(retained.attempts, w)
      <==> exists k :: k in retained.attempts && retained.attempts[k].window == Some(w) {}
    forall w | w in db.windows && Lapsed(db, db.(attempts := retained.attempts), w, now)
      ensures db.windows[w].state == Open {}
    hide Lapsed, Referenced;
  }

  lemma SameKept(db: Db, one: Db, other: Db, w: WindowId, now: nat)
    requires w in db.windows && one.attempts == other.attempts
    ensures Kept(db, one, w, now) <==> Kept(db, other, w, now)
  {}

  lemma SecretsOfRetained(db: Db, now: nat)
    ensures Retention(db, now).secrets == set w | w in db.secrets && w in db.windows && db.windows[w].expiresAt > now
  {
    hide CleanMessages, CleanAttempts, CleanSessions, CloseExpired;
  }

  /** The last statement that deletes: windows that are not kept go, unless a session still refers to one. */
  lemma CleanupTxn(db: Db, now: nat)
    ensures var txn, retained := Cleanup(db, now), Retention(db, now);
      var kept := KeptWindows(retained, now);
      && (txn.Rollback? <==> exists t ::
            && t in retained.sessions && retained.sessions[t].window.Some?
            && retained.sessions[t].window.value in retained.windows && retained.sessions[t].window.value !in kept)
      && (txn.Commit? ==> txn.db == retained.(windows := kept, secrets := set w | w in retained.secrets && w in kept))
  {
    hide Retention, KeptWindows;
  }

  /**
   Cleanup removes exactly this: payloads of final messages after a week, settled attempts after a month and
   their metadata after a week, failure reports after a month, sessions that expired or were closed an hour ago,
   tokens of expired windows, and retired windows after a month; and it closes lapsed windows.
   */
  lemma CleanupRemoves(db: Db, now: nat)
    requires Cleanup(db, now).Commit?
    ensures var after := Cleanup(db, now).db;
      && CleanedMessages(db.messages, after.messages, now) && CleanedAttempts(db.attempts, after.attempts, now)
      && CleanedSessions(db.sessions, after.sessions, now) && CleanedWindows(db, after, now)
      && (forall f :: f in after.failures <==> f in db.failures && db.failures[f].observedAt + MONTH >= now)
      && (forall f :: f in after.failures ==> after.failures[f] == db.failures[f])
      && after == db.(messages := after.messages, attempts := after.attempts, sessions := after.sessions,
           failures := after.failures, windows := after.windows, secrets := after.secrets)
  {
    hide *;
    CleanupOfRows(db, now);
    CleanupTxn(db, now);
    CleanupClosesWindows(db, now);
  }

  lemma CleanupClosesWindows(db: Db, now: nat)
    requires Cleanup(db, now).Commit?
    ensures CleanedWindows(db, Cleanup(db, now).db, now)
  {
    var retained, after := Retention(db, now), Cleanup(db, now).db;
    CleanupOfWindows(db, now);
    SecretsOfRetained(db, now);
    CleanupTxn(db, now);
    hide Cleanup, Retention;
    KeptIs(db, retained, now);
    hide KeptWindows, LapsedRow;
    forall w | w in db.windows ensures Kept(db, after, w, now) <==> Kept(db, retained, w, now) {
      SameKept(db, after, retained, w, now);
    }
    hide Kept;
  }
}
