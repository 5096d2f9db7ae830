/** Safety over every run of transactions. */
module Runs {
  import opened Basics
  import opened Tables
  import opened PageOrder
  import opened Ledger
  import opened Inbox
  import opened PageCommit
  import opened Authorization
  import opened Events
  import opened Invariants
  import opened InboxProofs
  import opened LedgerProofs
  import opened PageProofs
  import opened RetentionProofs
  import opened Steps

  // ---------------------------------------------------------------- one event

  /** Accounts, cursors, pages and reply windows. */
  predicate OfLedger(e: Event) {
    e.Register? || e.Rotate? || e.Delete? || e.SetCursor? || e.Poll? || e.Ingest? || e.Prepare? || e.Start? ||
    e.Release? || e.Recover? || e.SystemSend?
  }

  /** The life of a message. */
  predicate OfMessages(e: Event) {
    e.Promote? || e.Evaluated? || e.Claimed? || e.Prepared? || e.Ignore? || e.Complete? || e.Steer? ||
    e.Confirm? || e.Requeue? || e.Fail? || e.Defer? || e.SuppressGroup? || e.Finished?
  }

  lemma LedgerEventKeeps(db: Db, e: Event, now: nat)
    requires Inv(db) && Enabled(db, e, now) && OfLedger(e)
    ensures Inv(Apply(db, e, now))
  {
    hide Inv, After, StartupSources, Interrupted, CommitPage, CompareAndSetCursor, DeleteAccount,
      IngestSyncPage, PrepareReply, RecoverPending, RegisterAccount, ReleasePending, RotateAccount, StartReply,
      StartSystem;
    match e
    case Register(account, owner) => RegisterAccountKeeps(db, account, owner);
    case Rotate(account, owner, generation) => RotateAccountKeeps(db, account, owner, generation, now);
    case Delete(account) => DeleteAccountKeeps(db, account, now);
    case SetCursor(account, generation, expected, next) =>
      CompareAndSetCursorKeeps(db, account, generation, expected, next);
    case Poll(page) => CommitPageKeeps(db, page, now);
    case Ingest(account, expected, next, arrivals) => IngestKeeps(db, account, expected, next, arrivals, now);
    case Prepare(token, persist) => PrepareReplyKeeps(db, token, persist, now);
    case Start(token, attempt) => StartReplyKeeps(db, token, attempt, now);
    case Release(attempt, expired) => ReleasePendingKeeps(db, attempt, expired, now);
    case Recover => RecoverPendingKeeps(db, now);
    case SystemSend(key, origin) => StartSystemKeeps(db, key, origin, now);
  }

  lemma MessageEventKeeps(db: Db, e: Event, now: nat)
    requires Inv(db) && Enabled(db, e, now) && OfMessages(e)
    ensures Inv(Apply(db, e, now))
  {
    hide Inv, After, StartupSources, Interrupted, BeginSteering, Claim, ConfirmSteered, DeferActive, Evaluate,
      FailInbound, Finalize, MarkCompleted, MarkIgnored, MarkPreparing, PromoteDeferred, RequeueSteering,
      Suppress;
    match e
    case Promote(conv) => PromoteDeferredKeeps(db, conv, now);
    case Evaluated(evaluation, peer) => EvaluateKeeps(db, evaluation, peer, now);
    case Claimed(key) => ClaimKeeps(db, key, now);
    case Prepared(key, turnId) => MarkPreparingKeeps(db, key, turnId, now);
    case Ignore(key) => MarkIgnoredKeeps(db, key, now);
    case Complete(key) => MarkCompletedKeeps(db, key, now);
    case Steer(key, primary) => BeginSteeringKeeps(db, key, primary, now);
    case Confirm(key, turnId) => ConfirmSteeredKeeps(db, key, turnId, now);
    case Requeue(key, primary) => RequeueSteeringKeeps(db, key, primary, now);
    case Fail(key) => FailInboundKeeps(db, key, now);
    case Defer(key) => DeferActiveKeeps(db, key, now);
    case SuppressGroup(key) => SuppressKeeps(db, key, now);
    case Finished(key, steered, reported) => FinalizeKeeps(db, key, steered, reported, now);
  }

  lemma OtherEventKeeps(db: Db, e: Event, now: nat)
    requires Inv(db) && Enabled(db, e, now) && !OfLedger(e) && !OfMessages(e)
    ensures Inv(Apply(db, e, now))
  {
    hide Inv, After, StartupSources, Interrupted, BeginSend, Cleanup, CloseSession, CloseSessionsOf,
      CompleteSend, CreateSession, FailSend, FinishSending, MarkMsgFailed, RecoverStartup, ReserveAgentSend,
      ReserveQueueNotice;
    match e
    case OpenSession(token, key, boundary, ttl) => CreateSessionKeeps(db, token, key, boundary, ttl, now);
    case EndSession(token) => CloseSessionKeeps(db, token, now);
    case EndSessions(key) => CloseSessionsOfKeeps(db, key, now);
    case AgentSend(token) => ReserveAgentSendKeeps(db, token, now);
    case Notice(key) => ReserveQueueNoticeKeeps(db, key, now);
    case NextSend(attempt) => BeginSendKeeps(db, attempt, now);
    case Accept(attempt, providerId) => CompleteSendKeeps(db, attempt, providerId, now);
    case Lose(attempt, code) => FinishSendingKeeps(db, attempt, Uncertain, "", ProviderError(code), now);
    case Refuse(attempt, code) => FailSendKeeps(db, attempt, code, now);
    case DeliveryFailed(providerId, failType) => MarkMsgFailedKeeps(db, providerId, failType, now);
    case Restart(sources) => RecoverStartupKeeps(db, sources, now);
    case Retain => CleanupKeeps(db, now);
  }

  lemma ApplyKeeps(db: Db, e: Event, now: nat)
    requires Inv(db) && Enabled(db, e, now)
    ensures Inv(Apply(db, e, now))
  {
    hide Inv, Apply, Enabled;
    if OfLedger(e) {
      LedgerEventKeeps(db, e, now);
    } else if OfMessages(e) {
      MessageEventKeeps(db, e, now);
    } else {
      OtherEventKeeps(db, e, now);
    }
  }

  /** Only these events write account rows, and only the deletion of an account deletes messages. */
  predicate MovesAccounts(e: Event) { e.Register? || e.Rotate? || e.Delete? || e.SetCursor? || e.Poll? }

  lemma LedgerEventSteps(db: Db, e: Event, now: nat)
    requires Inv(db) && Enabled(db, e, now) && OfLedger(e)
    ensures StepOk(db, Apply(db, e, now))
    ensures !MovesAccounts(e) ==> QuietStep(db, Apply(db, e, now))
    ensures !MovesAccounts(e) && !e.Retain? ==> StillStep(db, Apply(db, e, now))
    ensures !e.Evaluated? ==> Apply(db, e, now).auths == db.auths
  {
    hide Inv, StepOk, Still, After, CommitPage, CompareAndSetCursor, DeleteAccount, IngestSyncPage,
      PrepareReply, RecoverPending, RegisterAccount, ReleasePending, RotateAccount, StartReply, StartSystem;
    match e
    case Register(account, owner) => RegisterSteps(db, account, owner);
    case Rotate(account, owner, generation) => RotateSteps(db, account, owner, generation, now);
    case Delete(account) => DeleteSteps(db, account, now);
    case SetCursor(account, generation, expected, next) => SetCursorSteps(db, account, generation, expected, next);
    case Poll(page) => PollSteps(db, page, now);
    case Ingest(account, expected, next, arrivals) => IngestSteps(db, account, expected, next, arrivals, now);
    case Prepare(token, persist) => PrepareSteps(db, token, persist, now);
    case Start(token, attempt) => StartSteps(db, token, attempt, now);
    case Release(attempt, expired) => ReleaseSteps(db, attempt, expired, now);
    case Recover => RecoverSteps(db, now);
    case SystemSend(key, origin) => SystemSendSteps(db, key, origin, now);
  }

  lemma OwnEventSteps(db: Db, e: Event, now: nat)
    requires Inv(db) && Enabled(db, e, now)
    requires (e.Promote? || e.Evaluated? || e.Claimed? || e.Prepared? || e.Ignore? || e.Complete?)
    ensures StepOk(db, Apply(db, e, now))
    ensures !MovesAccounts(e) ==> QuietStep(db, Apply(db, e, now))
    ensures !MovesAccounts(e) && !e.Retain? ==> StillStep(db, Apply(db, e, now))
    ensures !e.Evaluated? ==> Apply(db, e, now).auths == db.auths
  {
    hide Inv, StepOk, Still, After, Claim, Evaluate, MarkCompleted, MarkIgnored, MarkPreparing, PromoteDeferred;
    match e
    case Promote(conv) => PromoteSteps(db, conv, now);
    case Evaluated(evaluation, peer) => EvaluateSteps(db, evaluation, peer, now);
    case Claimed(key) => ClaimSteps(db, key, now);
    case Prepared(key, turnId) => PreparingSteps(db, key, turnId, now);
    case Ignore(key) => IgnoreSteps(db, key, now);
    case Complete(key) => CompleteSteps(db, key, now);
  }

  lemma GroupEventSteps(db: Db, e: Event, now: nat)
    requires Inv(db) && Enabled(db, e, now) && OfMessages(e)
    requires !(e.Promote? || e.Evaluated? || e.Claimed? || e.Prepared? || e.Ignore? || e.Complete?)
    ensures StepOk(db, Apply(db, e, now))
    ensures !MovesAccounts(e) ==> QuietStep(db, Apply(db, e, now))
    ensures !MovesAccounts(e) && !e.Retain? ==> StillStep(db, Apply(db, e, now))
    ensures !e.Evaluated? ==> Apply(db, e, now).auths == db.auths
  {
    hide Inv, StepOk, Still, After, BeginSteering, ConfirmSteered, DeferActive, FailInbound, Finalize,
      RequeueSteering, Suppress;
    match e
    case Steer(key, primary) => SteerSteps(db, key, primary, now);
    case Confirm(key, turnId) => ConfirmSteps(db, key, turnId, now);
    case Requeue(key, primary) => RequeueSteps(db, key, primary, now);
    case Fail(key) => FailSteps(db, key, now);
    case Defer(key) => DeferSteps(db, key, now);
    case SuppressGroup(key) => SuppressSteps(db, key, now);
    case Finished(key, steered, reported) => FinalizeSteps(db, key, steered, reported, now);
  }

  lemma MessageEventSteps(db: Db, e: Event, now: nat)
    requires Inv(db) && Enabled(db, e, now) && OfMessages(e)
    ensures StepOk(db, Apply(db, e, now))
    ensures !MovesAccounts(e) ==> QuietStep(db, Apply(db, e, now))
    ensures !MovesAccounts(e) && !e.Retain? ==> StillStep(db, Apply(db, e, now))
    ensures !e.Evaluated? ==> Apply(db, e, now).auths == db.auths
  {
    hide Inv, Apply, Enabled, StepOk, QuietStep, StillStep;
    if e.Promote? || e.Evaluated? || e.Claimed? || e.Prepared? || e.Ignore? || e.Complete? {
      OwnEventSteps(db, e, now);
    } else {
      GroupEventSteps(db, e, now);
    }
  }

  lemma OtherEventSteps(db: Db, e: Event, now: nat)
    requires Inv(db) && Enabled(db, e, now) && !OfLedger(e) && !OfMessages(e)
    ensures StepOk(db, Apply(db, e, now))
    ensures !MovesAccounts(e) ==> QuietStep(db, Apply(db, e, now))
    ensures !MovesAccounts(e) && !e.Retain? ==> StillStep(db, Apply(db, e, now))
    ensures !e.Evaluated? ==> Apply(db, e, now).auths == db.auths
  {
    hide Inv, StepOk, Still, After, BeginSend, Cleanup, CloseSession, CloseSessionsOf, CompleteSend,
      CreateSession, FailSend, FinishSending, MarkMsgFailed, RecoverStartup, ReserveAgentSend,
      ReserveQueueNotice;
    match e
    case OpenSession(token, key, boundary, ttl) => OpenSessionSteps(db, token, key, boundary, ttl, now);
    case EndSession(token) => EndSessionSteps(db, token, now);
    case EndSessions(key) => EndSessionsSteps(db, key, now);
    case AgentSend(token) => AgentSendSteps(db, token, now);
    case Notice(key) => NoticeSteps(db, key, now);
    case NextSend(attempt) => NextSendSteps(db, attempt, now);
    case Accept(attempt, providerId) => AcceptSteps(db, attempt, providerId, now);
    case Lose(attempt, code) => FinishSteps(db, attempt, Uncertain, "", ProviderError(code), now);
    case Refuse(attempt, code) => RefuseSteps(db, attempt, code, now);
    case DeliveryFailed(providerId, failType) => DeliveryFailedSteps(db, providerId, failType, now);
    case Restart(sources) => RestartSteps(db, sources, now);
    case Retain => RetainSteps(db, now);
  }

  lemma ApplySteps(db: Db, e: Event, now: nat)
    requires Inv(db) && Enabled(db, e, now)
    ensures StepOk(db, Apply(db, e, now))
    ensures !MovesAccounts(e) ==> QuietStep(db, Apply(db, e, now))
    ensures !MovesAccounts(e) && !e.Retain? ==> StillStep(db, Apply(db, e, now))
    ensures !e.Evaluated? ==> Apply(db, e, now).auths == db.auths
  {
    hide Inv, Apply, Enabled, StepOk, QuietStep, StillStep;
    if OfLedger(e) {
      LedgerEventSteps(db, e, now);
    } else if OfMessages(e) {
      MessageEventSteps(db, e, now);
    } else {
      OtherEventSteps(db, e, now);
    }
  }

  /** Every transaction keeps the invariant and moves every row along its edges. */
  lemma NextKeeps(db: Db, t: Tick)
    requires Inv(db)
    ensures Inv(Next(db, t)) && StepOk(db, Next(db, t))
  {
    hide Inv, StepOk, Apply;
    NoStep(db);
    if Enabled(db, t.event, t.now) {
      ApplyKeeps(db, t.event, t.now);
      ApplySteps(db, t.event, t.now);
    }
  }

  /** The invariant holds after every run. */
  lemma {:induction false} Always(run: seq<Tick>)
    ensures Inv(Final(run))
  {
    hide Inv, Next;
    if run == [] {
      EmptyDbOk();
    } else {
      Always(run[..|run| - 1]);
      NextKeeps(Final(run[..|run| - 1]), run[|run| - 1]);
    }
  }
}
