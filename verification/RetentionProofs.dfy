/** Retention keeps the invariant. */
module RetentionProofs {
  import opened Basics
  import opened Tables
  import opened Ledger
  import opened Inbox
  import opened Invariants
  import opened LedgerProofs

  lemma CleanMessagesKeeps(db: Db, now: nat)
    requires Inv(db)
    ensures Inv(db.(messages := CleanMessages(db.messages, now)))
  {
    var after := CleanMessages(db.messages, now);
    forall k | k in after ensures FlatAt(after, k) { assert FlatAt(db.messages, k); }
    RewriteKeeps(db, after);
  }

  lemma PendingIsOutstanding(attempts: map<AttemptKey, Attempt>, w: WindowId)
    ensures PendingOf(attempts, w) != {} ==> Outstanding(attempts, w)
  {
    if PendingOf(attempts, w) != {} { var k :| k in PendingOf(attempts, w); }
  }

  /** What is closed has no pending attempt and keeps nothing reserved. */
  lemma CloseKeepsQuotaAt(db: Db, now: nat, w: WindowId)
    requires Inv(db) && w in db.windows
    ensures QuotaAt(CloseExpired(db.windows, db.attempts, db.messages, now)[w], |PendingOf(db.attempts, w)|,
      |ChargedOf(db.attempts, w)|, db.sent[w])
  {
    hide Inv;
    WindowFacts(db, w);
    PendingIsOutstanding(db.attempts, w);
  }

  lemma CloseExpiredKeeps(db: Db, now: nat)
    requires Inv(db) && forall w :: w in db.secrets ==> w in db.windows && db.windows[w].expiresAt > now
    ensures Inv(db.(windows := CloseExpired(db.windows, db.attempts, db.messages, now)))
  {
    hide Inv, PendingOf, ChargedOf;
    var after := CloseExpired(db.windows, db.attempts, db.messages, now);
    forall w | w in db.windows
      ensures QuotaAt(after[w], |PendingOf(db.attempts, w)|, |ChargedOf(db.attempts, w)|, db.sent[w])
    {
      CloseKeepsQuotaAt(db, now, w);
    }
    forall w | w in db.secrets ensures w in after && after[w].state == Open { SecretFacts(db, w); }
    RewrittenKeeps(db, after, db.attempts, db.secrets);
  }

  lemma FewerSecretsKeeps(db: Db, secrets: set<WindowId>)
    requires Inv(db) && secrets <= db.secrets
    ensures Inv(db.(secrets := secrets))
  {}

  lemma CleanAttemptsProgress(attempts: map<AttemptKey, Attempt>, now: nat)
    ensures AllProgress(attempts, CleanAttempts(attempts, now))
  {}

  lemma CleanSessionsFewer(sessions: map<Token, Session>, now: nat)
    ensures FewerSessions(sessions, CleanSessions(sessions, now))
  {}

  lemma RetentionKeeps(db: Db, now: nat)
    requires Inv(db)
    ensures Inv(Retention(db, now))
  {
    hide Inv, CleanMessages, CleanAttempts, CleanSessions, CloseExpired, AllProgress, FewerSessions;
    CleanMessagesKeeps(db, now);
    var d1 := db.(messages := CleanMessages(db.messages, now));
    CleanAttemptsProgress(db.attempts, now);
    ProgressKeeps(d1, CleanAttempts(db.attempts, now));
    var d2 := d1.(attempts := CleanAttempts(db.attempts, now));
    CleanSessionsFewer(db.sessions, now);
    FewerSessionsKeeps(d2, CleanSessions(db.sessions, now));
    var d3 := d2.(sessions := CleanSessions(db.sessions, now));
    var d4 := d3.(secrets := Retention(db, now).secrets);
    FewerSecretsKeeps(d3, d4.secrets);
    var d5 := d4.(failures := Retention(db, now).failures);
    OtherTablesKeep(d4, d5);
    CloseExpiredKeeps(d5, now);
  }

  lemma DropKeepsLinks(db: Db, kept: map<WindowId, Window>)
    requires Inv(db) && kept.Keys <= db.windows.Keys && forall w :: w in kept ==> kept[w] == db.windows[w]
    requires forall k :: k in db.attempts && db.attempts[k].window.Some? ==> db.attempts[k].window.value in kept
    requires forall t :: t in db.sessions && db.sessions[t].window.Some? ==> db.sessions[t].window.value in kept
    ensures LinksInv(db.(windows := kept))
  {
    hide Inv;
    forall k | k in db.attempts ensures AttemptOk(db.messages, kept, k, db.attempts[k]) { AttemptFacts(db, k); }
    forall t | t in db.sessions ensures SessionOk(db.messages, kept, db.sessions[t]) { SessionFacts(db, t); }
    forall w | w in kept ensures WindowOk(db.accounts, db.messages, db.nextWindow, w, kept[w]) { WindowFacts(db, w); }
  }

  lemma DropKeepsQuota(db: Db, kept: map<WindowId, Window>)
    requires Inv(db) && kept.Keys <= db.windows.Keys && forall w :: w in kept ==> kept[w] == db.windows[w]
    ensures QuotaOk(kept, db.attempts, db.sent)
  {
    hide Inv, PendingOf, ChargedOf;
    forall w | w in kept
      ensures QuotaAt(kept[w], |PendingOf(db.attempts, w)|, |ChargedOf(db.attempts, w)|, db.sent[w])
    {
      WindowFacts(db, w);
    }
  }

  lemma DropKeepsMarks(db: Db, kept: map<WindowId, Window>, secrets: set<WindowId>)
    requires Inv(db) && secrets == (set w | w in db.secrets && w in kept)
    requires kept.Keys <= db.windows.Keys && forall w :: w in kept ==> kept[w] == db.windows[w]
    ensures SecretsOk(kept, secrets) && UniqueWindows(kept) && IndicesOk(kept, db.attempts)
  {
    assert SecretsOk(db.windows, db.secrets) && UniqueWindows(db.windows) && IndicesOk(db.windows, db.attempts);
    hide Inv;
  }

  /** Windows that no attempt and no session refers to can go. */
  lemma DropWindowsKeeps(db: Db, kept: map<WindowId, Window>, secrets: set<WindowId>)
    requires Inv(db) && secrets == (set w | w in db.secrets && w in kept)
    requires kept.Keys <= db.windows.Keys && forall w :: w in kept ==> kept[w] == db.windows[w]
    requires forall k :: k in db.attempts && db.attempts[k].window.Some? ==> db.attempts[k].window.value in kept
    requires forall t :: t in db.sessions && db.sessions[t].window.Some? ==> db.sessions[t].window.value in kept
    ensures Inv(db.(windows := kept, secrets := secrets))
  {
    DropKeepsLinks(db, kept);
    DropKeepsQuota(db, kept);
    DropKeepsMarks(db, kept, secrets);
    hide QuotaOk, AttemptsOk, SessionsOk, WindowsOk, OneSending, GroupsFlat, RowsOk, AgentOk, SecretsOk,
      UniqueWindows, IndicesOk;
  }

  lemma CleanupKeeps(db: Db, now: nat)
    requires Inv(db)
    ensures Inv(After(db, Cleanup(db, now)))
  {
    hide Inv;
    var txn := Cleanup(db, now);
    if txn.Commit? {
      RetentionKeeps(db, now);
      var retained := Retention(db, now);
      forall k | k in retained.attempts && retained.attempts[k].window.Some?
        ensures retained.attempts[k].window.value in txn.db.windows
      {
        AttemptFacts(retained, k);
        assert Referenced(retained.attempts, retained.attempts[k].window.value);
      }
      forall t | t in retained.sessions && retained.sessions[t].window.Some?
        ensures retained.sessions[t].window.value in txn.db.windows
      {
        SessionFacts(retained, t);
      }
      DropWindowsKeeps(retained, txn.db.windows, txn.db.secrets);
    }
  }

  // ---------------------------------------------------------------- what cleanup spares

  /** What retention never touches. */
  ghost predicate Spared(db: Db, after: Db, now: nat) {
    && after.messages.Keys == db.messages.Keys
    && (forall k :: k in db.messages ==> after.messages[k] == db.messages[k].(payload := after.messages[k].payload))
    && (forall k :: k in db.attempts && db.attempts[k].status in {Pending, Sending, Uncertain} ==>
          k in after.attempts && after.attempts[k] == db.attempts[k])
    && (forall w :: w in db.windows && db.windows[w].state == Open && db.windows[w].expiresAt > now ==>
          w in after.windows && after.windows[w] == db.windows[w] && (w in db.secrets ==> w in after.secrets))
    && (forall k ::
          k in after.attempts && after.attempts[k].window.Some? && after.attempts[k].window.value in db.windows ==>
          after.attempts[k].window.value in after.windows)
  }

  lemma RetentionSpares(db: Db, now: nat)
    ensures var after := Retention(db, now);
      && after.messages.Keys == db.messages.Keys
      && (forall k :: k in db.messages ==> after.messages[k] == db.messages[k].(payload := after.messages[k].payload))
      && (forall k :: k in db.attempts && db.attempts[k].status in {Pending, Sending, Uncertain} ==>
            k in after.attempts && after.attempts[k] == db.attempts[k])
  {
    hide CloseExpired, CleanSessions;
  }

  lemma RetentionWindows(db: Db, now: nat)
    ensures var after := Retention(db, now);
      && after.windows.Keys == db.windows.Keys
      && forall w :: w in db.windows && db.windows[w].state == Open && db.windows[w].expiresAt > now ==>
           after.windows[w] == db.windows[w] && (w in db.secrets ==> w in after.secrets)
  {
    hide CleanMessages, CleanAttempts, CleanSessions, Outstanding;
  }

  lemma KeptSpares(db: Db, now: nat)
    ensures var kept := KeptWindows(db, now);
      && (forall w :: w in db.windows && db.windows[w].state == Open ==> w in kept)
      && (forall w :: w in kept ==> w in db.windows && kept[w] == db.windows[w])
      && (forall k :: k in db.attempts && db.attempts[k].window.Some? && db.attempts[k].window.value in db.windows ==>
            db.attempts[k].window.value in kept)
  {
    forall k | k in db.attempts && db.attempts[k].window.Some?
      ensures Referenced(db.attempts, db.attempts[k].window.value) {}
  }

  /**
   Cleanup keeps every message row and its status, every attempt that is pending, on the wire or uncertain,
   every open window that has not expired together with its secret, and the window of every kept attempt.
   */
  lemma CleanupSpares(db: Db, now: nat)
    requires Cleanup(db, now).Commit?
    ensures Spared(db, Cleanup(db, now).db, now)
  {
    RetentionSpares(db, now);
    RetentionWindows(db, now);
    var retained := Retention(db, now);
    KeptSpares(retained, now);
    var after := Cleanup(db, now).db;
    assert after == retained.(windows := KeptWindows(retained, now), secrets := after.secrets)
      && after.secrets == (set w | w in retained.secrets && w in KeptWindows(retained, now)) by {
      hide Retention, KeptWindows, Dangling;
    }
    hide Cleanup, Retention, KeptWindows;
  }
}
