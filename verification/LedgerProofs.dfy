/**
 The transactions of the iLink store keep the invariant, and the exits that guard the counters of a
 window cannot be taken.
 */
module LedgerProofs {
  import opened Basics
  import opened Tables
  import opened Ledger
  import opened Inbox
  import opened Invariants

  // ---------------------------------------------------------------- one window, one attempt

  lemma SizeWithout<T>(s: set<T>, t: set<T>, x: T, added: bool)
    requires t - {x} == s - {x} && (added <==> x in t)
    ensures |t| == |s - {x}| + (if added then 1 else 0)
  {
    if added { assert t == (s - {x}) + {x}; } else { assert t == s - {x}; }
  }

  lemma PutPending(attempts: map<AttemptKey, Attempt>, key: AttemptKey, a: Attempt, id: WindowId)
    requires a.window == Some(id)
    ensures |PendingOf(attempts[key := a], id)| ==
      |PendingOf(attempts, id) - {key}| + (if a.status == Pending then 1 else 0)
  {
    var s, t := PendingOf(attempts, id), PendingOf(attempts[key := a], id);
    forall k | k != key ensures k in s <==> k in t {}
    assert t - {key} == s - {key};
    SizeWithout(s, t, key, a.status == Pending);
  }

  lemma PutCharged(attempts: map<AttemptKey, Attempt>, key: AttemptKey, a: Attempt, id: WindowId)
    requires a.window == Some(id)
    ensures |ChargedOf(attempts[key := a], id)| == |ChargedOf(attempts, id) - {key}| + (if Charged(a) then 1 else 0)
  {
    hide Charged;
    var s, t := ChargedOf(attempts, id), ChargedOf(attempts[key := a], id);
    forall k | k != key ensures k in s <==> k in t {}
    assert t - {key} == s - {key};
    SizeWithout(s, t, key, Charged(a));
  }

  lemma PutElsewhere(attempts: map<AttemptKey, Attempt>, key: AttemptKey, a: Attempt, w: WindowId)
    requires a.window != Some(w) && (key in attempts ==> attempts[key].window != Some(w))
    ensures PendingOf(attempts[key := a], w) == PendingOf(attempts, w)
    ensures ChargedOf(attempts[key := a], w) == ChargedOf(attempts, w)
  {}

  /** The columns that identify a window. */
  ghost predicate SameWindow(v: Window, w: Window) {
    && v.conv == w.conv && v.source == w.source && v.sourceSeq == w.sourceSeq
    && v.generation == w.generation && v.state == w.state && v.next <= w.next
  }

  lemma PutKeepsQuota(db: Db, id: WindowId, w: Window, key: AttemptKey, a: Attempt, sent: multiset<WindowId>)
    requires QuotaOk(db.windows, db.attempts, db.sent) && id in db.windows
    requires a.window == Some(id) && (key in db.attempts ==> db.attempts[key].window == Some(id))
    requires sent == db.sent || sent == db.sent + multiset{id}
    requires QuotaAt(w, |PendingOf(db.attempts[key := a], id)|, |ChargedOf(db.attempts[key := a], id)|, sent[id])
    ensures QuotaOk(db.windows[id := w], db.attempts[key := a], sent)
  {
    var after := db.attempts[key := a];
    forall v | v in db.windows && v != id
      ensures QuotaAt(db.windows[v], |PendingOf(after, v)|, |ChargedOf(after, v)|, sent[v])
    {
      PutElsewhere(db.attempts, key, a, v);
      assert QuotaAt(db.windows[v], |PendingOf(db.attempts, v)|, |ChargedOf(db.attempts, v)|, db.sent[v]);
    }
  }

  /** Either the index of a row is kept, or a new row takes the next index. */
  ghost predicate IndexKept(db: Db, id: WindowId, w: Window, key: AttemptKey, a: Attempt)
    requires id in db.windows
  {
    if key in db.attempts then
      a.windowIndex == db.attempts[key].windowIndex && a.issued == db.attempts[key].issued
    else
      a.issued ==> a.windowIndex == Some(db.windows[id].next) && w.next == db.windows[id].next + 1
  }

  lemma PutKeepsOrder(db: Db, id: WindowId, w: Window, key: AttemptKey, a: Attempt)
    requires IndicesOk(db.windows, db.attempts) && OneSending(db.attempts) && id in db.windows
    requires a.window == Some(id) && (key in db.attempts ==> db.attempts[key].window == Some(id))
    requires SameWindow(db.windows[id], w) && IndexKept(db, id, w, key, a)
    requires a.status == Sending ==> !SendingIn(db.attempts, a.conv)
    ensures IndicesOk(db.windows[id := w], db.attempts[key := a])
    ensures OneSending(db.attempts[key := a])
  {
    var after := db.attempts[key := a];
    assert forall k, v :: k != key && Indexed(after, k, v) ==> Indexed(db.attempts, k, v);
    assert forall v :: Indexed(after, key, v) && key in db.attempts ==> Indexed(db.attempts, key, v);
    assert forall k, conv :: k != key && IlinkSending(after, k, conv) ==> IlinkSending(db.attempts, k, conv);
  }

  lemma PutKeepsLinks(db: Db, id: WindowId, w: Window, key: AttemptKey, a: Attempt)
    requires Inv(db) && id in db.windows && SameWindow(db.windows[id], w)
    requires AttemptOk(db.messages, db.windows, key, a)
    ensures AttemptsOk(db.messages, db.windows[id := w], db.attempts[key := a])
    ensures SessionsOk(db.messages, db.windows[id := w], db.sessions)
    ensures WindowsOk(db.accounts, db.messages, db.windows[id := w], db.nextWindow)
  {
    var after := db.attempts[key := a];
    forall k | k in after ensures AttemptOk(db.messages, db.windows[id := w], k, after[k]) {
      if k != key { AttemptFacts(db, k); }
    }
    forall t | t in db.sessions ensures SessionOk(db.messages, db.windows[id := w], db.sessions[t]) {
      assert SessionOk(db.messages, db.windows, db.sessions[t]);
    }
    WindowFacts(db, id);
  }

  lemma PutKeepsMessages(db: Db, key: AttemptKey, a: Attempt)
    requires AgentOk(db.messages, db.attempts) && key.source in db.messages && Owns(db.messages[key.source].status, a)
    ensures AgentOk(db.messages, db.attempts[key := a])
  {}

  lemma PutKeepsWindows(db: Db, id: WindowId, w: Window, sent: multiset<WindowId>)
    requires Inv(db) && id in db.windows && SameWindow(db.windows[id], w)
    requires (sent == db.sent || sent == db.sent + multiset{id}) && sent[id] <= MAX_SENDS
    ensures UniqueWindows(db.windows[id := w]) && SecretsOk(db.windows[id := w], db.secrets)
    ensures SentOk(db.nextWindow, sent)
  {
    WindowFacts(db, id);
  }

  /** Writing one attempt together with the counters of its window. */
  lemma PutKeeps(db: Db, id: WindowId, w: Window, key: AttemptKey, a: Attempt, sent: multiset<WindowId>)
    requires Inv(db) && id in db.windows && SameWindow(db.windows[id], w)
    requires AttemptOk(db.messages, db.windows, key, a) && Owns(db.messages[key.source].status, a)
    requires a.window == Some(id) && (key in db.attempts ==> db.attempts[key].window == Some(id))
    requires sent == db.sent || sent == db.sent + multiset{id}
    requires QuotaAt(w, |PendingOf(db.attempts[key := a], id)|, |ChargedOf(db.attempts[key := a], id)|, sent[id])
    requires IndexKept(db, id, w, key, a)
    requires a.status == Sending ==> !SendingIn(db.attempts, a.conv)
    ensures Inv(db.(windows := db.windows[id := w], attempts := db.attempts[key := a], sent := sent))
  {
    PutKeepsQuota(db, id, w, key, a, sent);
    PutKeepsOrder(db, id, w, key, a);
    PutKeepsLinks(db, id, w, key, a);
    PutKeepsMessages(db, key, a);
    PutKeepsWindows(db, id, w, sent);
    hide QuotaOk, IndicesOk, OneSending, AttemptsOk, SessionsOk, WindowsOk, AgentOk, UniqueWindows, SecretsOk, SentOk,
      RowsOk, GroupsFlat, QuotaAt, IndexKept, SendingIn, AttemptOk, Owns, PendingOf, ChargedOf, SameWindow;
  }

  // ---------------------------------------------------------------- prepare, start, release

  /** A new attempt of a window. */
  lemma NewSizes(db: Db, key: AttemptKey, a: Attempt, id: WindowId)
    requires Inv(db) && id in db.windows && a.window == Some(id) && key !in db.attempts
    ensures |PendingOf(db.attempts[key := a], id)| ==
      |PendingOf(db.attempts, id)| + (if a.status == Pending then 1 else 0)
    ensures |ChargedOf(db.attempts[key := a], id)| == |ChargedOf(db.attempts, id)| + (if Charged(a) then 1 else 0)
  {
    hide Inv;
    PutPending(db.attempts, key, a, id);
    PutCharged(db.attempts, key, a, id);
    assert PendingOf(db.attempts, id) - {key} == PendingOf(db.attempts, id);
    assert ChargedOf(db.attempts, id) - {key} == ChargedOf(db.attempts, id);
  }

  /** A pending attempt of a window becomes something else. */
  lemma PendingSizes(db: Db, key: AttemptKey, a: Attempt, id: WindowId)
    requires Inv(db) && id in db.windows && key in db.attempts
    requires db.attempts[key].window == a.window == Some(id) && db.attempts[key].status == Pending
    requires a.status != Pending
    ensures |PendingOf(db.attempts[key := a], id)| == |PendingOf(db.attempts, id)| - 1
    ensures |ChargedOf(db.attempts[key := a], id)| == |ChargedOf(db.attempts, id)| - (if Charged(a) then 0 else 1)
  {
    hide Inv;
    AttemptFacts(db, key);
    PutPending(db.attempts, key, a, id);
    PutCharged(db.attempts, key, a, id);
    assert key in PendingOf(db.attempts, id) && key in ChargedOf(db.attempts, id);
  }

  /** What `prepareReplyAttempt` writes. */
  lemma PrepareShape(db: Db, token: Token, persistRejection: bool, now: nat)
    requires PrepareReply(db, token, persistRejection, now).Commit?
    ensures token in db.sessions && HasSessionRow(db, token)
    ensures var s := db.sessions[token];
      var id, w := s.window.value, db.windows[s.window.value];
      var txn := PrepareReply(db, token, persistRejection, now);
      var key := txn.value.key;
      && key !in db.attempts && key.source == s.source && key.index < MAX_ATTEMPTS
      && db.messages[s.source].status in {Processing, Preparing}
      && ((txn.value.Rejected? && txn.db == db.(attempts := db.attempts[key := txn.db.attempts[key]])
           && txn.db.attempts[key].reason in {ReplyWindowExpired, ReplyQuotaExhausted}
           && txn.db.attempts[key] == NewAttempt(w, id, McpTool, FailedSend, txn.db.attempts[key].reason, now))
          || (txn.value.Reserved? && w.state == Open && w.reserved + w.transmitted < MAX_SENDS
              && txn.db == db.(
                   windows := db.windows[id := w.(next := w.next + 1, reserved := w.reserved + 1, updatedAt := now)],
                   attempts := db.attempts[key := NewAttempt(w, id, McpTool, Pending, NoReason, now)])))
  {
    hide NextIndex;
  }

  lemma RejectedKeeps(db: Db, id: WindowId, key: AttemptKey, reason: Reason, now: nat)
    requires Inv(db) && id in db.windows && key !in db.attempts && key.source in db.messages && key.index < MAX_ATTEMPTS
    requires db.messages[key.source].status in {Processing, Preparing}
    requires db.messages[key.source].conv == db.windows[id].conv
    requires reason in {ReplyWindowExpired, ReplyQuotaExhausted}
    ensures Inv(db.(attempts := db.attempts[key := NewAttempt(db.windows[id], id, McpTool, FailedSend, reason, now)]))
  {
    hide Inv;
    var a := NewAttempt(db.windows[id], id, McpTool, FailedSend, reason, now);
    WindowFacts(db, id);
    NewSizes(db, key, a, id);
    PutKeeps(db, id, db.windows[id], key, a, db.sent);
    assert db.windows[id := db.windows[id]] == db.windows;
    hide NewAttempt;
  }

  lemma ReservedKeeps(db: Db, id: WindowId, key: AttemptKey, now: nat)
    requires Inv(db) && id in db.windows && key !in db.attempts && key.source in db.messages && key.index < MAX_ATTEMPTS
    requires db.messages[key.source].status in {Processing, Preparing}
    requires db.messages[key.source].conv == db.windows[id].conv
    requires db.windows[id].state == Open && db.windows[id].reserved + db.windows[id].transmitted < MAX_SENDS
    ensures var w := db.windows[id];
      Inv(db.(windows := db.windows[id := w.(next := w.next + 1, reserved := w.reserved + 1, updatedAt := now)],
              attempts := db.attempts[key := NewAttempt(w, id, McpTool, Pending, NoReason, now)]))
  {
    hide Inv;
    var w := db.windows[id];
    var a := NewAttempt(w, id, McpTool, Pending, NoReason, now);
    WindowFacts(db, id);
    NewSizes(db, key, a, id);
    PutKeeps(db, id, w.(next := w.next + 1, reserved := w.reserved + 1, updatedAt := now), key, a, db.sent);
  }

  lemma PrepareReplyKeeps(db: Db, token: Token, persistRejection: bool, now: nat)
    requires Inv(db)
    ensures Inv(After(db, PrepareReply(db, token, persistRejection, now)))
  {
    var txn := PrepareReply(db, token, persistRejection, now);
    hide Inv, PrepareReply, NewAttempt;
    if txn.Commit? {
      PrepareShape(db, token, persistRejection, now);
      var id, key := db.sessions[token].window.value, txn.value.key;
      SessionFacts(db, token);
      if txn.value.Rejected? {
        RejectedKeeps(db, id, key, txn.db.attempts[key].reason, now);
      } else {
        ReservedKeeps(db, id, key, now);
      }
    }
  }

  lemma StartReplyKeeps(db: Db, token: Token, key: AttemptKey, now: nat)
    requires Inv(db)
    ensures Inv(After(db, StartReply(db, token, key, now)))
  {
    hide Inv;
    var txn := StartReply(db, token, key, now);
    if txn.Commit? {
      var id := db.sessions[token].window.value;
      AttemptFacts(db, key);
      WindowFacts(db, id);
      PendingSizes(db, key, txn.db.attempts[key], id);
      PutKeeps(db, id, txn.db.windows[id], key, txn.db.attempts[key], txn.db.sent);
    }
  }

  lemma ReleasePendingKeeps(db: Db, key: AttemptKey, expired: bool, now: nat)
    requires Inv(db)
    ensures Inv(After(db, ReleasePending(db, key, expired, now)))
  {
    hide Inv;
    var txn := ReleasePending(db, key, expired, now);
    if txn.Commit? && txn.value {
      var id := db.attempts[key].window.value;
      AttemptFacts(db, key);
      WindowFacts(db, id);
      PendingSizes(db, key, txn.db.attempts[key], id);
      PutKeeps(db, id, txn.db.windows[id], key, txn.db.attempts[key], db.sent);
    }
  }

  lemma StartSystemKeeps(db: Db, key: MessageKey, origin: Origin, now: nat)
    requires Inv(db) && origin != McpTool
    ensures Inv(After(db, StartSystem(db, key, origin, now)))
  {
    hide Inv;
    var txn := StartSystem(db, key, origin, now);
    if txn.Commit? {
      var id := SourceWindow(db, key).value;
      WindowFacts(db, id);
      NewSizes(db, txn.value, txn.db.attempts[txn.value], id);
      PutKeeps(db, id, txn.db.windows[id], txn.value, txn.db.attempts[txn.value], txn.db.sent);
    }
  }

  // ---------------------------------------------------------------- unreachable exits

  /** The counters of the window of a pending attempt have room for it. */
  lemma PendingIsReserved(db: Db, key: AttemptKey)
    requires Inv(db) && key in db.attempts && db.attempts[key].status == Pending && db.attempts[key].window.Some?
    ensures db.attempts[key].window.value in db.windows
    ensures var w := db.windows[db.attempts[key].window.value];
      w.state == Open && 0 < w.reserved && w.reserved + w.transmitted <= MAX_SENDS
  {
    hide Inv;
    var id := db.attempts[key].window.value;
    AttemptFacts(db, key);
    assert key in PendingOf(db.attempts, id);
    WindowFacts(db, id);
  }

  /** Neither a reservation, nor a start, nor a release, nor recovery ever finds the counters inconsistent. */
  lemma NoCounterConflict(db: Db, token: Token, key: AttemptKey, persistRejection: bool, expired: bool, now: nat)
    requires Inv(db)
    ensures PrepareReply(db, token, persistRejection, now) != Rollback(CounterConflict)
    ensures StartReply(db, token, key, now) != Rollback(CounterConflict)
    ensures ReleasePending(db, key, expired, now).Commit?
    ensures RecoverPending(db, now).Commit?
  {
    hide Inv;
    if key in db.attempts && db.attempts[key].status == Pending {
      AttemptFacts(db, key);
      if db.attempts[key].window.Some? { PendingIsReserved(db, key); }
    }
    forall k | k in PendingIlink(db.attempts)
      ensures db.attempts[k].window.Some? && db.attempts[k].window.value in db.windows
      ensures |PendingOf(db.attempts, db.attempts[k].window.value)| <= db.windows[db.attempts[k].window.value].reserved
    {
      AttemptFacts(db, k);
      var id := db.attempts[k].window.value;
      WindowFacts(db, id);
    }
  }

  // ---------------------------------------------------------------- bulk changes

  /** Every window keeps its identity; it may be retired, and its counters may shrink. */
  ghost predicate WindowsRewritten(before: map<WindowId, Window>, after: map<WindowId, Window>) {
    && before.Keys == after.Keys
    && forall w :: w in before ==>
         && after[w].conv == before[w].conv && after[w].source == before[w].source
         && after[w].sourceSeq == before[w].sourceSeq && after[w].generation == before[w].generation
         && after[w].next == before[w].next
         && (after[w].state == Open ==> before[w].state == Open)
  }

  lemma RewrittenKeepsLinks(db: Db, windows: map<WindowId, Window>)
    requires LinksInv(db) && UniqueWindows(db.windows) && WindowsRewritten(db.windows, windows)
    ensures LinksInv(db.(windows := windows)) && UniqueWindows(windows)
  {
    forall k | k in db.attempts ensures AttemptOk(db.messages, windows, k, db.attempts[k]) {
      assert AttemptOk(db.messages, db.windows, k, db.attempts[k]);
    }
    forall t | t in db.sessions ensures SessionOk(db.messages, windows, db.sessions[t]) {
      assert SessionOk(db.messages, db.windows, db.sessions[t]);
    }
    forall w | w in windows ensures WindowOk(db.accounts, db.messages, db.nextWindow, w, windows[w]) {
      assert WindowOk(db.accounts, db.messages, db.nextWindow, w, db.windows[w]);
    }
  }

  /** Replacing windows and attempts together: what remains to be shown is the quota and the secrets. */
  lemma RewrittenKeeps(db: Db, windows: map<WindowId, Window>, attempts: map<AttemptKey, Attempt>,
                       secrets: set<WindowId>)
    requires Inv(db) && WindowsRewritten(db.windows, windows) && AllProgress(db.attempts, attempts)
    requires QuotaOk(windows, attempts, db.sent) && SecretsOk(windows, secrets)
    ensures Inv(db.(windows := windows, attempts := attempts, secrets := secrets))
  {
    ProgressKeepsAttempts(db.messages, db.windows, db.attempts, attempts);
    ProgressKeepsAgent(db.messages, db.attempts, attempts);
    ProgressKeepsSending(db.attempts, attempts);
    ProgressKeepsIndices(db.windows, db.attempts, attempts);
    RewrittenKeepsLinks(db.(attempts := attempts), windows);
  }

  lemma RecoverPendingKeeps(db: Db, now: nat)
    requires Inv(db)
    ensures Inv(After(db, RecoverPending(db, now)))
  {
    hide Inv, FailPending, ChargedOf, PendingOf, PendingIlink, Recoverable;
    var txn := RecoverPending(db, now);
    if txn.Commit? {
      FailPendingProgress(db, PendingIlink(db.attempts), AbandonedBeforeTransmit, now);
      forall w | w in db.windows
        ensures QuotaAt(txn.db.windows[w], |PendingOf(txn.db.attempts, w)|, |ChargedOf(txn.db.attempts, w)|, db.sent[w])
      {
        RecoverKeepsQuotaAt(db, now, w);
      }
      forall w | w in db.secrets ensures w in txn.db.windows && txn.db.windows[w].state == Open { SecretFacts(db, w); }
      RewrittenKeeps(db, txn.db.windows, txn.db.attempts, db.secrets);
    }
  }

  lemma FailPendingProgress(db: Db, chosen: set<AttemptKey>, reason: Reason, now: nat)
    requires Inv(db)
    ensures AllProgress(db.attempts, FailPending(db.attempts, chosen, reason, now))
  {
    hide Inv;
    forall k | k in db.attempts ensures Progress(db.attempts[k], FailPending(db.attempts, chosen, reason, now)[k]) {
      AttemptFacts(db, k);
    }
  }

  /** Recovery leaves no attempt of a window pending and releases what it failed. */
  lemma RecoverSets(db: Db, now: nat, w: WindowId)
    requires Inv(db)
    ensures var after := FailPending(db.attempts, PendingIlink(db.attempts), AbandonedBeforeTransmit, now);
      && PendingOf(after, w) == {}
      && ChargedOf(after, w) == ChargedOf(db.attempts, w) - PendingOf(db.attempts, w)
    ensures PendingOf(db.attempts, w) <= ChargedOf(db.attempts, w)
  {
    hide Inv;
    forall k | k in PendingOf(db.attempts, w) ensures k in PendingIlink(db.attempts) && k in ChargedOf(db.attempts, w) {
      AttemptFacts(db, k);
    }
  }

  lemma RecoverKeepsQuotaAt(db: Db, now: nat, w: WindowId)
    requires Inv(db) && w in db.windows && RecoverPending(db, now).Commit?
    ensures var after := RecoverPending(db, now).db;
      QuotaAt(after.windows[w], |PendingOf(after.attempts, w)|, |ChargedOf(after.attempts, w)|, db.sent[w])
  {
    hide Inv, Recoverable, ChargedOf, PendingOf, FailPending;
    RecoverSets(db, now, w);
    var pending, charged := PendingOf(db.attempts, w), ChargedOf(db.attempts, w);
    assert charged == (charged - pending) + pending;
    WindowFacts(db, w);
  }

  lemma RetirePending(db: Db, ws: set<WindowId>, state: WindowState, reason: Reason, now: nat, w: WindowId)
    ensures var after := RetireWindows(db, ws, state, reason, now);
      PendingOf(after.attempts, w) == if w in ws then {} else PendingOf(db.attempts, w)
  {}

  lemma RetireCharged(db: Db, ws: set<WindowId>, state: WindowState, reason: Reason, now: nat, w: WindowId)
    requires Inv(db)
    ensures |ChargedOf(RetireWindows(db, ws, state, reason, now).attempts, w)| <= |ChargedOf(db.attempts, w)|
  {
    hide Inv;
    var after := RetireWindows(db, ws, state, reason, now);
    forall k | k in ChargedOf(after.attempts, w) ensures k in ChargedOf(db.attempts, w) {
      AttemptFacts(db, k);
    }
    SubsetSize(ChargedOf(after.attempts, w), ChargedOf(db.attempts, w));
  }

  lemma RetireKeepsQuotaAt(db: Db, ws: set<WindowId>, state: WindowState, reason: Reason, now: nat, w: WindowId)
    requires Inv(db) && w in db.windows && state != Open
    requires forall v :: v in ws ==> v in db.windows && db.windows[v].state == Open
    ensures var after := RetireWindows(db, ws, state, reason, now);
      QuotaAt(after.windows[w], |PendingOf(after.attempts, w)|, |ChargedOf(after.attempts, w)|, db.sent[w])
  {
    hide Inv, ChargedOf, PendingOf;
    WindowFacts(db, w);
    RetirePending(db, ws, state, reason, now, w);
    RetireCharged(db, ws, state, reason, now, w);
  }

  /** Retired windows lose their secrets, so the remaining secrets belong to open windows. */
  lemma RetireSecrets(db: Db, ws: set<WindowId>, state: WindowState, reason: Reason, now: nat)
    requires Inv(db)
    ensures var after := RetireWindows(db, ws, state, reason, now); SecretsOk(after.windows, after.secrets)
  {
    hide Inv;
    var after := RetireWindows(db, ws, state, reason, now);
    forall w | w in after.secrets ensures w in after.windows && after.windows[w].state == Open { SecretFacts(db, w); }
  }

  lemma RetireKeeps(db: Db, ws: set<WindowId>, state: WindowState, reason: Reason, now: nat)
    requires Inv(db) && state != Open
    requires forall v :: v in ws ==> v in db.windows && db.windows[v].state == Open
    ensures Inv(RetireWindows(db, ws, state, reason, now))
  {
    hide Inv;
    var after := RetireWindows(db, ws, state, reason, now);
    FailPendingProgress(db, WindowAttempts(db.attempts, ws), reason, now);
    forall w | w in db.windows
      ensures QuotaAt(after.windows[w], |PendingOf(after.attempts, w)|, |ChargedOf(after.attempts, w)|, db.sent[w])
    {
      RetireKeepsQuotaAt(db, ws, state, reason, now, w);
    }
    RetireSecrets(db, ws, state, reason, now);
    RewrittenKeeps(db, after.windows, after.attempts, after.secrets);
    FewerSessionsKeeps(db.(windows := after.windows, attempts := after.attempts, secrets := after.secrets),
      after.sessions);
  }

  // ---------------------------------------------------------------- accounts

  lemma RegisterAccountKeeps(db: Db, account: string, owner: string)
    requires Inv(db)
    ensures Inv(After(db, RegisterAccount(db, account, owner)))
  {
    var txn := RegisterAccount(db, account, owner);
    forall w | w in db.windows && txn.Commit?
      ensures WindowOk(txn.db.accounts, db.messages, db.nextWindow, w, db.windows[w])
    {
      WindowFacts(db, w);
    }
  }

  /** Rewriting an account none of whose windows is open. */
  lemma SetAccountKeeps(db: Db, account: string, row: Account)
    requires Inv(db) && account in db.accounts
    requires row.generation != db.accounts[account].generation ==> OpenWindowsOf(db.windows, account) == {}
    ensures Inv(db.(accounts := db.accounts[account := row]))
  {
    forall w | w in db.windows
      ensures WindowOk(db.accounts[account := row], db.messages, db.nextWindow, w, db.windows[w])
    {
      WindowFacts(db, w);
      assert db.windows[w].conv.account == account && db.windows[w].state == Open ==>
        w in OpenWindowsOf(db.windows, account);
    }
  }

  lemma RotateAccountKeeps(db: Db, account: string, owner: string, expectedGeneration: nat, now: nat)
    requires Inv(db)
    ensures Inv(After(db, RotateAccount(db, account, owner, expectedGeneration, now)))
  {
    hide Inv;
    var txn := RotateAccount(db, account, owner, expectedGeneration, now);
    if txn.Commit? {
      var ws := OpenWindowsOf(db.windows, account);
      RetireKeeps(db, ws, Cancelled, GenerationChanged, now);
      var cancelled := RetireWindows(db, ws, Cancelled, GenerationChanged, now);
      assert OpenWindowsOf(cancelled.windows, account) == {};
      SetAccountKeeps(cancelled, account, txn.db.accounts[account]);
    }
  }

  lemma CompareAndSetCursorKeeps(db: Db, account: string, generation: nat, expected: string, next: string)
    requires Inv(db)
    ensures Inv(After(db, CompareAndSetCursor(db, account, generation, expected, next)))
  {
    if CursorMatches(db, account, generation, expected) {
      SetAccountKeeps(db, account, db.accounts[account].(cursor := next));
    }
  }

  /** Everything of an account goes together, and nothing else refers to it. */
  lemma DeleteAccountKeeps(db: Db, account: string, now: nat)
    requires Inv(db)
    ensures Inv(After(db, DeleteAccount(db, account, now)))
  {
    hide Inv;
    var txn := DeleteAccount(db, account, now);
    if txn.Commit? {
      var ws := OpenWindowsOf(db.windows, account);
      RetireKeeps(db, ws, Cancelled, AccountDeleted, now);
      var gone := RetireWindows(db, ws, Cancelled, AccountDeleted, now);
      DeleteKeepsMessages(gone, txn.db, account);
      DeleteKeepsLinks(gone, txn.db, account);
      DeleteKeepsLedger(gone, txn.db, account);
      InvFromParts(txn.db);
    }
  }

  lemma InvFromParts(db: Db)
    requires MessagesInv(db) && LinksInv(db) && LedgerInv(db)
    ensures Inv(db)
  {}

  ghost predicate Deleted(gone: Db, after: Db, account: string) {
    && after.attempts == (map k | k in gone.attempts && !OfAccount(gone.attempts[k].conv, account) :: gone.attempts[k])
    && after.sessions == (map t | t in gone.sessions && !OfAccount(gone.sessions[t].conv, account) :: gone.sessions[t])
    && after.windows == (map w | w in gone.windows && gone.windows[w].conv.account != account :: gone.windows[w])
    && after.messages == (map k | k in gone.messages && !OfAccount(gone.messages[k].conv, account) :: gone.messages[k])
    && after.accounts == (map a | a in gone.accounts && a != account :: gone.accounts[a])
    && after.inbox == gone.inbox && after.nextWindow == gone.nextWindow
    && after.secrets == gone.secrets && after.sent == gone.sent
    && forall w :: w in gone.windows && gone.windows[w].conv.account == account ==> gone.windows[w].state != Open
  }

  lemma DeleteKeepsMessages(gone: Db, after: Db, account: string)
    requires Inv(gone) && Deleted(gone, after, account)
    ensures MessagesInv(after)
  {
    forall k | k in after.messages ensures FlatAt(after.messages, k) { assert FlatAt(gone.messages, k); }
  }

  lemma DeleteKeepsLinks(gone: Db, after: Db, account: string)
    requires Inv(gone) && Deleted(gone, after, account)
    ensures LinksInv(after)
  {
    forall k | k in after.attempts ensures AttemptOk(after.messages, after.windows, k, after.attempts[k]) {
      assert AttemptOk(gone.messages, gone.windows, k, gone.attempts[k]);
    }
    forall t | t in after.sessions ensures SessionOk(after.messages, after.windows, after.sessions[t]) {
      assert SessionOk(gone.messages, gone.windows, gone.sessions[t]);
    }
    forall w | w in after.windows
      ensures WindowOk(after.accounts, after.messages, after.nextWindow, w, after.windows[w])
    {
      assert WindowOk(gone.accounts, gone.messages, gone.nextWindow, w, gone.windows[w]);
    }
  }

  lemma DeleteKeepsQuota(gone: Db, after: Db, account: string)
    requires Inv(gone) && Deleted(gone, after, account)
    ensures QuotaOk(after.windows, after.attempts, after.sent)
  {
    forall w | w in after.windows
      ensures QuotaAt(after.windows[w], |PendingOf(after.attempts, w)|, |ChargedOf(after.attempts, w)|, after.sent[w])
    {
      SubsetSize(PendingOf(after.attempts, w), PendingOf(gone.attempts, w));
      SubsetSize(ChargedOf(after.attempts, w), ChargedOf(gone.attempts, w));
      WindowFacts(gone, w);
      hide Inv;
    }
  }

  lemma DeleteKeepsOrder(gone: Db, after: Db, account: string)
    requires Inv(gone) && Deleted(gone, after, account)
    ensures OneSending(after.attempts) && IndicesOk(after.windows, after.attempts)
  {
    assert OneSending(gone.attempts) && IndicesOk(gone.windows, gone.attempts);
    hide Inv;
    ProgressKeepsSending(gone.attempts, after.attempts);
    ProgressKeepsIndices(gone.windows, gone.attempts, after.attempts);
  }

  lemma DeleteKeepsLedger(gone: Db, after: Db, account: string)
    requires Inv(gone) && Deleted(gone, after, account)
    ensures LedgerInv(after)
  {
    DeleteKeepsQuota(gone, after, account);
    DeleteKeepsOrder(gone, after, account);
    hide QuotaOk, AttemptsOk, SessionsOk, WindowsOk, GroupsFlat, RowsOk, AgentOk, OneSending, IndicesOk;
  }

  // ---------------------------------------------------------------- what a deletion leaves

  /** Nothing of an iLink account is left. */
  ghost predicate NoTrace(db: Db, account: string) {
    && account !in db.accounts
    && (forall k :: k in db.messages ==> !OfAccount(db.messages[k].conv, account))
    && (forall k :: k in db.attempts ==> !OfAccount(db.attempts[k].conv, account))
    && (forall t :: t in db.sessions ==> !OfAccount(db.sessions[t].conv, account))
    && (forall w :: w in db.windows ==> db.windows[w].conv.account != account)
    && (forall w :: w in db.secrets ==> w in db.windows)
  }

  /** Nothing of other accounts, or of the other channel, has changed. */
  ghost predicate OthersUntouched(db: Db, after: Db, account: string) {
    && (forall a :: a in db.accounts && a != account ==> a in after.accounts && after.accounts[a] == db.accounts[a])
    && (forall k :: k in db.messages && !OfAccount(db.messages[k].conv, account) ==>
          k in after.messages && after.messages[k] == db.messages[k])
    && (forall k :: k in db.attempts && !OfAccount(db.attempts[k].conv, account) ==>
          k in after.attempts && after.attempts[k] == db.attempts[k])
    && (forall w :: w in db.windows && db.windows[w].conv.account != account ==>
          w in after.windows && after.windows[w] == db.windows[w])
  }

  /** Retiring the windows of an account touches only its own attempts. */
  lemma RetiredAttempt(db: Db, account: string, now: nat, k: AttemptKey)
    requires Inv(db) && k in db.attempts
    ensures var gone := RetireWindows(db, OpenWindowsOf(db.windows, account), Cancelled, AccountDeleted, now);
      && k in gone.attempts && gone.attempts[k].conv == db.attempts[k].conv
      && (!OfAccount(db.attempts[k].conv, account) ==> gone.attempts[k] == db.attempts[k])
  {
    AttemptFacts(db, k);
    hide Inv, CloseSessions;
  }

  lemma RetiredWindows(db: Db, account: string, now: nat)
    ensures var gone := RetireWindows(db, OpenWindowsOf(db.windows, account), Cancelled, AccountDeleted, now);
      && gone.messages == db.messages && gone.accounts == db.accounts
      && gone.attempts.Keys == db.attempts.Keys && gone.windows.Keys == db.windows.Keys
      && gone.secrets == db.secrets - OpenWindowsOf(db.windows, account)
      && forall w :: w in db.windows ==>
           && gone.windows[w].conv == db.windows[w].conv
           && (db.windows[w].conv.account != account ==> gone.windows[w] == db.windows[w])
  {
    hide CloseSessions;
  }

  lemma DeleteShape(gone: Db, account: string)
    ensures var after := WithoutAccount(gone, account);
      && after.secrets == gone.secrets
      && (forall w :: w in after.windows <==> w in gone.windows && gone.windows[w].conv.account != account)
      && (forall w :: w in after.windows ==> after.windows[w] == gone.windows[w])
      && (forall k :: k in after.attempts <==> k in gone.attempts && !OfAccount(gone.attempts[k].conv, account))
      && (forall k :: k in after.attempts ==> after.attempts[k] == gone.attempts[k])
  {
    hide OfAccount;
  }

  /** The remaining tables of a deletion. */
  lemma DeleteRest(gone: Db, account: string)
    ensures var after := WithoutAccount(gone, account);
      && (forall k :: k in after.messages <==> k in gone.messages && !OfAccount(gone.messages[k].conv, account))
      && (forall k :: k in after.messages ==> after.messages[k] == gone.messages[k])
      && (forall t :: t in after.sessions ==> !OfAccount(after.sessions[t].conv, account))
      && (forall a :: a in after.accounts <==> a in gone.accounts && a != account)
      && (forall a :: a in after.accounts ==> after.accounts[a] == gone.accounts[a])
  {
    hide OfAccount;
  }

  lemma DeleteLeavesNoTrace(db: Db, gone: Db, account: string, now: nat)
    requires Inv(db) && gone == RetireWindows(db, OpenWindowsOf(db.windows, account), Cancelled, AccountDeleted, now)
    ensures NoTrace(WithoutAccount(gone, account), account)
  {
    DeleteShape(gone, account);
    DeleteRest(gone, account);
    RetiredWindows(db, account, now);
    forall w | w in db.secrets ensures w in db.windows && db.windows[w].state == Open {
      assert SecretsOk(db.windows, db.secrets);
    }
    hide Inv, WithoutAccount, RetireWindows, OfAccount;
  }

  lemma DeleteSparesOthers(db: Db, gone: Db, account: string, now: nat)
    requires Inv(db) && gone == RetireWindows(db, OpenWindowsOf(db.windows, account), Cancelled, AccountDeleted, now)
    ensures OthersUntouched(db, WithoutAccount(gone, account), account)
  {
    DeleteShape(gone, account);
    DeleteRest(gone, account);
    RetiredWindows(db, account, now);
    hide Inv, WithoutAccount, RetireWindows, OfAccount, OpenWindowsOf;
    forall k | k in db.attempts && !OfAccount(db.attempts[k].conv, account)
      ensures k in WithoutAccount(gone, account).attempts
      ensures WithoutAccount(gone, account).attempts[k] == db.attempts[k]
    {
      RetiredAttempt(db, account, now, k);
    }
  }

  /** Deleting an account leaves no row of it, and every row of other accounts as it was. */
  lemma DeletedWithoutTrace(db: Db, account: string, now: nat)
    requires Inv(db) && DeleteAccount(db, account, now).Commit?
    ensures NoTrace(DeleteAccount(db, account, now).db, account)
    ensures OthersUntouched(db, DeleteAccount(db, account, now).db, account)
  {
    var gone := RetireWindows(db, OpenWindowsOf(db.windows, account), Cancelled, AccountDeleted, now);
    DeleteLeavesNoTrace(db, gone, account, now);
    DeleteSparesOthers(db, gone, account, now);
    hide Inv, WithoutAccount, RetireWindows, OfAccount, OpenWindowsOf, NoTrace, OthersUntouched;
  }
}
