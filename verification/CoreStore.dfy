/** The core store: its transactions, statement by statement, against what they do to the tables. */
module CoreStore {
  import opened Basics
  import opened Tables
  import opened Ledger
  import opened Inbox
  import opened Authorization
  import opened Database
  import opened PageLoops
  import opened InboxProofs
  import opened RetentionProofs
  import opened Steps

  class CoreStore {
    const database: Database

    constructor (database: Database)
      ensures this.database == database
    {
      this.database := database;
    }

    // -------------------------------------------------------------- insertion

    /** `insertInboundMessages`: every arrival is inserted unless it is stored, and must belong to its conversation. */
    method InsertInboundMessages(arrivals: seq<Arrival>, now: nat) returns (ok: bool, inserted: seq<bool>)
      modifies database
      ensures ok <==> SameIdentity(old(database.rows), arrivals)
      ensures ok ==> database.rows == InsertAll(old(database.rows), arrivals, now) && |inserted| == |arrivals|
      ensures ok ==> forall i :: 0 <= i < |arrivals| ==>
        (inserted[i] <==> IsNew(old(database.rows).messages, arrivals, i))
    {
      ghost var db := database.rows;
      inserted := [];
      for i := 0 to |arrivals|
        invariant SameIdentity(db, arrivals[..i]) && |inserted| == i
        invariant database.rows == InsertAll(db, arrivals[..i], now)
        invariant forall j :: 0 <= j < i ==> (inserted[j] <==> IsNew(db.messages, arrivals, j))
      {
        InsertedSoFar(db, arrivals, i, now);
        hide SameIdentity, IsNew, InsertAll;
        var a := arrivals[i];
        inserted := inserted + [a.key !in database.rows.messages];
        database.rows := InsertOne(database.rows, a, now);
        if database.rows.messages[a.key].conv != a.conv {
          return false, [];
        }
      }
      assert arrivals[..|arrivals|] == arrivals;
      ok := true;
    }

    /** `ingestSyncPage`. */
    method IngestPage(account: string, expected: string, next: string, arrivals: seq<Arrival>, now: nat)
      returns (r: Result<(), Error>)
      modifies database
      ensures Ran(old(database.rows), IngestSyncPage(old(database.rows), account, expected, next, arrivals, now),
        database.rows, r)
    {
      var saved := database.rows;
      if CursorOf(saved, account) != expected { return Err(CursorConflict); }
      if !(forall a :: a in arrivals ==> WellFormed(account, a)) { return Err(InvalidInput); }
      InsertElsewhere(saved, arrivals, now);
      var ok, _ := InsertInboundMessages(arrivals, now);
      if !ok {
        database.rows := saved;
        return Err(DedupeInvariant);
      }
      hide InsertAll, SameIdentity;
      database.rows := database.rows.(cursors := database.rows.cursors[account := next]);
      r := Ok(());
    }

    // -------------------------------------------------------------- messages

    /** Update one message row. */
    method UpdateMessage(key: MessageKey, m: Inbound)
      modifies database
      ensures database.rows == old(database.rows).(messages := old(database.rows).messages[key := m])
    {
      database.rows := database.rows.(messages := database.rows.messages[key := m]);
    }

    /** `claimInbound`. */
    method ClaimInbound(key: MessageKey, now: nat) returns (r: Result<(), Error>)
      modifies database
      ensures Ran(old(database.rows), Claim(old(database.rows), key, now), database.rows, r)
    {
      if key !in database.rows.messages { return Err(UnknownMessage); }
      var m := database.rows.messages[key];
      if m.status in {Processing, Preparing} { return Ok(()); }
      if m.status !in {Received, Failed} { return Err(WrongStatus); }
      UpdateMessage(key, m.(status := Processing, updatedAt := now));
      r := Ok(());
    }

    /** `beginInboundSteering`. */
    method BeginInboundSteering(key: MessageKey, primary: MessageKey, now: nat) returns (r: Result<(), Error>)
      modifies database
      ensures Ran(old(database.rows), BeginSteering(old(database.rows), key, primary, now), database.rows, r)
    {
      var messages := database.rows.messages;
      if key !in messages || primary !in messages { return Err(UnknownMessage); }
      if messages[primary].status !in {Processing, Preparing} { return Err(WrongStatus); }
      if messages[key].conv != messages[primary].conv { return Err(PairMismatch); }
      if messages[key].status != Received { return Err(WrongStatus); }
      UpdateMessage(key, messages[key].(
        status := Steering, primary := Some(primary), turnId := messages[primary].turnId, updatedAt := now));
      r := Ok(());
    }

    /** `failInbound`: the message fails, then steering that never reached the Agent starts over. */
    method FailActive(key: MessageKey, now: nat) returns (r: Result<bool, Error>)
      modifies database
      ensures Ran(old(database.rows), FailInbound(old(database.rows), key, now), database.rows, r)
    {
      var db := database.rows;
      if key !in db.messages || db.messages[key].status !in {Processing, Preparing} { return Ok(false); }
      UpdateMessage(key, db.messages[key].(status := Failed, updatedAt := now));
      var messages := database.rows.messages;
      database.rows := database.rows.(messages := map k | k in messages :: var m := messages[k];
        if m.primary == Some(key) && InSteering(m) && m.turnId == "" then Requeued(m, now) else m);
      r := Ok(true);
    }

    /** `deferActiveInbound`. */
    method Defer(key: MessageKey, now: nat) returns (r: Result<bool, Error>)
      modifies database
      ensures Ran(old(database.rows), DeferActive(old(database.rows), key, now), database.rows, r)
    {
      var db := database.rows;
      if exists k :: k in db.attempts && k.source == key && db.attempts[k].origin != AgentApproval { return Ok(false); }
      var chosen := set k | k in db.messages && InGroup(k, db.messages[k], key)
        && db.messages[k].status in {Failed, Processing, Preparing, Steering, Steered};
      database.rows := database.rows.(messages := map k | k in db.messages ::
        if k in chosen then Requeued(db.messages[k], now).(deferred := true) else db.messages[k]);
      database.rows := database.rows.(sessions := CloseMessageSessions(db.sessions, key, now));
      r := Ok(chosen != {});
    }

    /** `suppressInbound`. */
    method SuppressInbound(key: MessageKey, now: nat)
      modifies database
      ensures database.rows == After(old(database.rows), Suppress(old(database.rows), key, now))
    {
      var db := database.rows;
      database.rows := database.rows.(messages := map k | k in db.messages :: var m := db.messages[k];
        if InGroup(k, m, key) && m.status !in {Completed, Ignored, Absorbed}
        then m.(status := Suppressed, updatedAt := now) else m);
      database.rows := database.rows.(attempts :=
        FailPending(db.attempts, MessageAttempts(db.attempts, key), SuppressedGroup, now));
    }

    /** Count one evaluation in the row of the customer. */
    method CountEvaluation(e: Evaluation, peer: string) returns (newlyAuthorized: bool)
      requires Outcome(RowOf(database.rows.auths, peer), e) in {Blocked, AuthorizedNow}
      modifies database
      ensures var row := RowOf(old(database.rows).auths, peer);
        database.rows == old(database.rows).(auths := old(database.rows).auths[peer := Step(row, e)])
        && Outcome(row, e) == if newlyAuthorized then AuthorizedNow else Blocked
    {
      var current := RowOf(database.rows.auths, peer);
      var earlier := if current.Some? && current.value.lastAccount == e.key.account then current.value.count else 0;
      var count := if e.trigger then earlier + 1 else 0;
      newlyAuthorized := count >= Threshold(e.required);
      database.rows := database.rows.(auths := database.rows.auths[peer :=
        Auth(newlyAuthorized, count, e.key.account, Some(e.key))]);
    }

    /** `evaluateAuthorization` once the evaluation counts. */
    method DecideEvaluation(e: Evaluation, peer: string, now: nat) returns (r: Result<Decision, Error>)
      requires e.key in database.rows.messages && database.rows.messages[e.key].status == Received
      requires database.rows.messages[e.key].conv == Conversation(WechatKf, e.key.account, peer)
      requires Outcome(RowOf(database.rows.auths, peer), e) in {Blocked, AuthorizedNow}
      modifies database
      ensures Ran(old(database.rows), Evaluate(old(database.rows), e, peer, now), database.rows, r)
    {
      hide Step, Outcome, Welcome, SetStatus;
      var saved := database.rows;
      var newlyAuthorized := CountEvaluation(e, peer);
      var notice := AttemptKey(e.key, 0);
      if !newlyAuthorized {
        IgnoreMessage(e.key, now);
        r := Ok(Blocked);
      } else if notice in saved.attempts && saved.attempts[notice].origin != AuthorizationNotice {
        database.rows := saved;
        r := Err(InvariantConflict);
      } else {
        WelcomeMessage(e.key, now);
        r := Ok(AuthorizedNow);
      }
    }

    /** `evaluateAuthorization`; the caller has a `received` message. */
    method EvaluateAuthorization(e: Evaluation, peer: string, now: nat) returns (r: Result<Decision, Error>)
      requires e.key in database.rows.messages ==> database.rows.messages[e.key].status == Received
      modifies database
      ensures Ran(old(database.rows), Evaluate(old(database.rows), e, peer, now), database.rows, r)
    {
      if e.key !in database.rows.messages { return Err(UnknownMessage); }
      if database.rows.messages[e.key].conv != Conversation(WechatKf, e.key.account, peer) { return Err(PairMismatch); }
      var current := RowOf(database.rows.auths, peer);
      if current.Some? && (current.value.authorized || current.value.lastMessage == Some(e.key)) {
        KnownOutcome(database.rows, e, peer, now);
        hide Evaluate, Outcome;
        return Ok(if current.value.lastMessage == Some(e.key) then Duplicate else AlreadyAuthorized);
      }
      assert Outcome(current, e) in {Blocked, AuthorizedNow};
      hide Evaluate, Outcome;
      r := DecideEvaluation(e, peer, now);
    }

    method IgnoreMessage(key: MessageKey, now: nat)
      requires key in database.rows.messages
      modifies database
      ensures database.rows == SetStatus(old(database.rows), key, Ignored, false, now)
    {
      UpdateMessage(key, database.rows.messages[key].(status := Ignored, payload := None, updatedAt := now));
    }

    /** The statements for a newly authorized customer. */
    method WelcomeMessage(key: MessageKey, now: nat)
      requires key in database.rows.messages
      modifies database
      ensures database.rows == Welcome(old(database.rows), key, now)
    {
      var notice, m := AttemptKey(key, 0), database.rows.messages[key];
      if notice !in database.rows.attempts {
        UpdateAttempt(notice, KfAttempt(m.conv, AuthorizationNotice, Pending, now));
      }
      UpdateMessage(key, m.(status := Ready, updatedAt := now));
    }

    // -------------------------------------------------------------- Agent sessions and sends

    /** `createAgentSession`; `token` is fresh. */
    method CreateAgentSession(token: Token, key: MessageKey, boundary: MessageKey, ttl: nat, now: nat)
      returns (r: Result<Token, Error>)
      requires token !in database.rows.sessions
      modifies database
      ensures Ran(old(database.rows), CreateSession(old(database.rows), token, key, boundary, ttl, now),
        database.rows, r)
      ensures r.Ok? ==> key in database.rows.messages
      ensures r.Ok? && now > 0 ==> OnlyLive(database.rows.sessions, database.rows.messages[key].conv, token, now)
    {
      ghost var before := database.rows;
      hide Boundary, Replacing, Min, Max, OnlyLive;
      var db := database.rows;
      if key !in db.messages || db.messages[key].status !in {Processing, Preparing} { return Err(InvalidAgentSession); }
      var conv := db.messages[key].conv;
      if boundary !in db.messages || db.messages[boundary].conv != conv { return Err(InvalidAgentSession); }
      var b := Boundary(db, key, boundary, now);
      if b.None? { return Err(BoundaryUnavailable); }
      var expires := now + Max(1000, Min(ttl, 60 * 60 * 1000));
      ReplaceSessions(token, Session(key, conv, b.value.1, b.value.0, expires, 0), now);
      r := Ok(token);
      assert CreateSession(before, token, key, boundary, ttl, now) == Commit(database.rows, token);
      hide CreateSession;
      if now > 0 { LiveSessionIsAlone(before, token, key, boundary, ttl, now); }
    }

    method ReplaceSessions(token: Token, s: Session, now: nat)
      modifies database
      ensures database.rows
           == old(database.rows).(sessions := Replacing(old(database.rows).sessions, token, s, now))
    {
      hide CloseSessions;
      var sessions := database.rows.sessions;
      var others := set t | t in sessions && sessions[t].conv == s.conv && sessions[t].expiresAt > now;
      database.rows := database.rows.(sessions := CloseSessions(sessions, others, now));
      database.rows := database.rows.(sessions := database.rows.sessions[token := s]);
    }

    /** `reserveAgentSend`: the row is inserted pending and claimed at once. */
    method ReserveSend(token: Token, now: nat) returns (r: Result<AttemptKey, Error>)
      modifies database
      ensures Ran(old(database.rows), ReserveAgentSend(old(database.rows), token, now), database.rows, r)
    {
      hide SessionUsable, NextIndex;
      var db := database.rows;
      if token !in db.sessions || !SessionUsable(db, token, now) || db.sessions[token].conv.channel != WechatKf {
        SessionInTable(db, token, now);
        return Err(InvalidAgentSession);
      }
      var s := db.sessions[token];
      var index := NextIndex(db.attempts, s.source, MAX_ATTEMPTS);
      if index >= 5 { return Err(BudgetExceeded); }
      var key := AttemptKey(s.source, index);
      UpdateAttempt(key, KfAttempt(s.conv, McpTool, Pending, now));
      UpdateAttempt(key, database.rows.attempts[key].(status := Sending, updatedAt := now));
      r := Ok(key);
    }

    method UpdateAttempt(key: AttemptKey, a: Attempt)
      modifies database
      ensures database.rows == old(database.rows).(attempts := old(database.rows).attempts[key := a])
    {
      database.rows := database.rows.(attempts := database.rows.attempts[key := a]);
    }

    /** `#settleSourceMessage`. */
    method SettleSource(key: MessageKey, now: nat)
      modifies database
      ensures database.rows == Settle(old(database.rows), key, now)
    {
      hide LaterCustomer;
      var db := database.rows;
      if exists k :: k in db.attempts && k.source == key && db.attempts[k].status in {Pending, Sending} { return; }
      if exists t :: t in db.sessions && db.sessions[t].source == key && Live(now, db.sessions[t]) { return; }
      if key !in db.messages || LaterCustomer(db.messages, key) { return; }
      if db.messages[key].status in {Ready, Processing, Preparing} {
        UpdateMessage(key, db.messages[key].(status := Completed, payload := None, updatedAt := now));
      }
    }

    /** `#finishSending`. */
    method Finish(key: AttemptKey, status: SendStatus, providerId: string, reason: Reason, now: nat)
      returns (r: Result<(), Error>)
      modifies database
      ensures Ran(old(database.rows), FinishSending(old(database.rows), key, status, providerId, reason, now),
        database.rows, r)
    {
      hide Settle, IdTaken;
      var attempts := database.rows.attempts;
      if key !in attempts { return Err(UnknownAttempt); }
      if attempts[key].status == status { return Ok(()); }
      if attempts[key].status != Sending { return Err(WrongStatus); }
      if providerId != "" && IdTaken(attempts, key, providerId) { return Err(UniqueViolation); }
      UpdateAttempt(key, attempts[key].(status := status, providerMessageId := providerId, reason := reason,
        updatedAt := now));
      SettleSource(key.source, now);
      r := Ok(());
    }

    /** `#applyDeliveryFailure`. */
    method ApplyDeliveryFailure(key: AttemptKey, failType: int, now: nat)
      requires key in database.rows.attempts
      modifies database
      ensures database.rows == ApplyFailure(old(database.rows), key, failType, now)
    {
      var a := database.rows.attempts[key];
      UpdateAttempt(key, a.(status := FailedSend, failType := failType, reason := MsgSendFail, updatedAt := now));
      var id := a.providerMessageId;
      if id in database.rows.failures {
        database.rows := database.rows.(failures := database.rows.failures[id :=
          database.rows.failures[id].(matched := Some(key), matchedAt := now)]);
      }
    }

    /** `completeSend`. */
    method Complete(key: AttemptKey, providerId: string, now: nat) returns (r: Result<(), Error>)
      modifies database
      ensures Ran(old(database.rows), CompleteSend(old(database.rows), key, providerId, now), database.rows, r)
    {
      hide FinishSending, ApplyFailure;
      if providerId == "" { return Err(InvalidInput); }
      r := Finish(key, Accepted, providerId, NoReason, now);
      if r.Err? || key !in database.rows.attempts || database.rows.attempts[key].conv.channel != WechatKf { return; }
      if providerId in database.rows.failures {
        ApplyDeliveryFailure(key, database.rows.failures[providerId].failType, now);
        r := Ok(());
      }
    }

    /** `markSendMsgFailed`; the table has one row per provider message id of a channel. */
    method RecordFailure(providerId: string, failType: int, now: nat) returns (matched: bool)
      requires forall j, k ::
        && AcceptedAs(database.rows.attempts, j, providerId)
        && AcceptedAs(database.rows.attempts, k, providerId)
        ==> j == k
      modifies database
      ensures MarkMsgFailed(old(database.rows), providerId, failType, now) == Commit(database.rows, matched)
    {
      if providerId == "" { return false; }
      var db := database.rows;
      var row := if providerId in db.failures then db.failures[providerId].(failType := failType, observedAt := now)
                 else Failure(failType, now, None, 0);
      database.rows := database.rows.(failures := db.failures[providerId := row]);
      var accepted := set k | k in db.attempts && AcceptedAs(db.attempts, k, providerId);
      if accepted == {} {
        assert forall k :: AcceptedAs(db.attempts, k, providerId) ==> k in accepted;
        return false;
      }
      var key :| key in accepted;
      hide ApplyFailure;
      ApplyDeliveryFailure(key, failType, now);
      matched := true;
    }

    // -------------------------------------------------------------- finalization and recovery

    /** `finalizeAgentExecution`: the message, the messages steered into it, then its sessions. */
    method FinalizeExecution(key: MessageKey, steered: set<MessageKey>, reported: seq<AttemptKey>, now: nat)
      returns (r: Result<(), Error>)
      modifies database
      ensures Ran(old(database.rows), Finalize(old(database.rows), key, steered, reported, now), database.rows, r)
    {
      hide WithinBudget, ToolAttempts, CloseMessageSessions;
      var saved := database.rows;
      if reported == [] || |reported| > MAX_ATTEMPTS || key !in saved.messages
        || !(forall i, j :: 0 <= i < j < |reported| ==> reported[i] != reported[j]) { return Err(InvalidInput); }
      if !WithinBudget(saved, key) { return Err(BudgetExceeded); }
      ToolAttemptsStored(saved.attempts, key);
      if (set k | k in reported) != ToolAttempts(saved.attempts, key)
        || !(forall k :: k in ToolAttempts(saved.attempts, key) ==>
          saved.attempts[k].status in {Accepted, FailedSend, Uncertain}) {
        return Err(InvariantConflict);
      }
      if saved.messages[key].status !in {Processing, Preparing, Ready, Completed} { return Err(WrongStatus); }
      UpdateMessage(key, saved.messages[key].(status := Completed, payload := None, updatedAt := now));
      var ok := AbsorbSteered(key, steered, now);
      if !ok {
        database.rows := saved;
        return Err(InvariantConflict);
      }
      database.rows := database.rows.(sessions := CloseMessageSessions(database.rows.sessions, key, now));
      r := Ok(());
    }

    /** Absorb the messages steered into a primary one, and tell whether all of the named ones were. */
    method AbsorbSteered(key: MessageKey, steered: set<MessageKey>, now: nat) returns (ok: bool)
      requires key in database.rows.messages && database.rows.messages[key].status == Completed
      modifies database
      ensures ok <==> forall k :: k in steered ==> SteeredBy(old(database.rows), k, key)
      ensures ok ==> database.rows == old(database.rows).(messages := map k | k in old(database.rows).messages ::
        if k in steered then old(database.rows).messages[k].(status := Absorbed, payload := None, updatedAt := now)
        else old(database.rows).messages[k])
    {
      var messages := database.rows.messages;
      var absorbed := set k | k in steered && SteeredBy(database.rows, k, key);
      SameSize(absorbed, steered);
      ok := |absorbed| == |steered|;
      assert ok <==> forall k :: k in steered ==> SteeredBy(database.rows, k, key);
      database.rows := database.rows.(messages := map k | k in messages ::
        if k in absorbed then messages[k].(status := Absorbed, payload := None, updatedAt := now) else messages[k]);
    }

    /** `recoverStartup`: close sessions, give up on sends, settle their sources one by one, restart lost steering. */
    method RecoverAtStartup(sources: seq<MessageKey>, now: nat)
      requires (set k | k in sources) == StartupSources(Interrupted(database.rows, now))
      modifies database
      ensures database.rows == After(old(database.rows), RecoverStartup(old(database.rows), sources, now))
    {
      var db := database.rows;
      database.rows := database.rows.(sessions := CloseSessions(db.sessions, db.sessions.Keys, now));
      database.rows := database.rows.(attempts := map k | k in db.attempts :: if db.attempts[k].status == Sending
        then db.attempts[k].(status := Uncertain, reason := StartupRecovery, updatedAt := now) else db.attempts[k]);
      assert database.rows == Interrupted(db, now);
      SettleSources(sources, now);
      var messages := database.rows.messages;
      database.rows := database.rows.(messages := map k | k in messages :: var m := messages[k];
        if InSteering(m) && m.turnId == "" then Requeued(m, now) else m);
    }

    method SettleSources(sources: seq<MessageKey>, now: nat)
      modifies database
      ensures database.rows == SettleAll(old(database.rows), sources, now)
    {
      ghost var db := database.rows;
      hide Settle;
      for i := 0 to |sources|
        invariant SettleAll(database.rows, sources[i..], now) == SettleAll(db, sources, now)
      {
        assert sources[i..][1..] == sources[i + 1..];
        SettleSource(sources[i], now);
      }
    }

    /** `failSend`. */
    method RejectSend(key: AttemptKey, code: string, now: nat) returns (r: Result<(), Error>)
      modifies database
      ensures Ran(old(database.rows), FailSend(old(database.rows), key, code, now), database.rows, r)
      ensures r.Ok? ==> key in database.rows.attempts && database.rows.attempts[key].status == FailedSend
    {
      hide Settle;
      var attempts := database.rows.attempts;
      if key !in attempts { return Err(UnknownAttempt); }
      if attempts[key].status == FailedSend { return Ok(()); }
      if attempts[key].status != Sending { return Err(WrongStatus); }
      UpdateAttempt(key, attempts[key].(status := FailedSend, reason := ProviderError(code), updatedAt := now));
      SettleOnly(database.rows, key.source, now);
      SettleSource(key.source, now);
      r := Ok(());
    }

    /** `cleanup`: every statement sees what the earlier ones left. */
    method CleanUp(now: nat) returns (r: Result<(), Error>)
      modifies database
      ensures Ran(old(database.rows), Cleanup(old(database.rows), now), database.rows, r)
      ensures r.Ok? ==> Spared(old(database.rows), database.rows, now)
    {
      if Cleanup(database.rows, now).Commit? { CleanupSpares(database.rows, now); }
      hide CleanMessages, CleanAttempts, CleanSessions, CloseExpired, KeptWindows, Dangling, Spared;
      var saved := database.rows;
      database.rows := database.rows.(messages := CleanMessages(saved.messages, now));
      database.rows := database.rows.(attempts := CleanAttempts(saved.attempts, now));
      database.rows := database.rows.(failures := map f | f in saved.failures
        && !Expired(saved.failures[f].observedAt, AUDIT_AGE, now) :: saved.failures[f]);
      database.rows := database.rows.(sessions := CleanSessions(saved.sessions, now));
      database.rows := database.rows.(secrets :=
        (set w | w in saved.secrets && w in saved.windows && saved.windows[w].expiresAt > now));
      database.rows := database.rows.(windows :=
        CloseExpired(database.rows.windows, database.rows.attempts, database.rows.messages, now));
      var kept := KeptWindows(database.rows, now);
      if Dangling(database.rows.sessions, database.rows.windows.Keys - kept.Keys) {
        database.rows := saved;
        return Err(InvariantConflict);
      }
      database.rows := database.rows.(windows := kept, secrets := (set w | w in database.rows.secrets && w in kept));
      r := Ok(());
    }
  }

  lemma KnownOutcome(db: Db, e: Evaluation, peer: string, now: nat)
    requires e.key in db.messages && db.messages[e.key].status == Received
    requires db.messages[e.key].conv == Conversation(WechatKf, e.key.account, peer)
    ensures var row := RowOf(db.auths, peer);
      row.Some? && (row.value.authorized || row.value.lastMessage == Some(e.key)) ==>
        Evaluate(db, e, peer, now) == Commit(db, if row.value.lastMessage == Some(e.key) then Duplicate
          else AlreadyAuthorized)
  {
    hide Step, SetStatus, Welcome;
  }

  lemma InsertElsewhere(db: Db, arrivals: seq<Arrival>, now: nat)
    ensures InsertAll(db, arrivals, now).cursors == db.cursors
  {
    if arrivals != [] { InsertElsewhere(db, arrivals[..|arrivals| - 1], now); }
  }

  lemma SessionInTable(db: Db, token: Token, now: nat)
    ensures SessionUsable(db, token, now) ==> token in db.sessions
  {}

  lemma ToolAttemptsStored(attempts: map<AttemptKey, Attempt>, key: MessageKey)
    ensures forall k :: k in ToolAttempts(attempts, key) ==> k in attempts
  {}

  lemma {:induction false} SameSize<T>(some: set<T>, all: set<T>)
    requires some <= all
    ensures |some| == |all| <==> some == all
  {
    if x :| x in some {
      SameSize(some - {x}, all - {x});
      assert some - {x} + {x} == some && all - {x} + {x} == all;
    }
  }
}
