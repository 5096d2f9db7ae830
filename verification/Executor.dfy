/**
 One iLink tool call, as the executor drives it through the ledger: prepare, then release or start, then
 the outcome of the transmission. Other transactions run at every await.
 */
module Executor {
  import opened Basics
  import opened Tables
  import opened Ledger
  import opened Inbox
  import opened Events
  import opened Invariants
  import opened InboxProofs
  import opened LedgerProofs
  import opened Steps
  import opened Runs
  import opened Safety
  import opened Quota

  /** What the provider made of the transmission. */
  datatype Reply = Sent(id: string) | Rejected(code: string) | Unknown(code: string)

  /**
   What happens around a call. `media` and `upload` hold for a text; `preparing`, `uploading` and
   `sending` are the transactions of others at the awaits. Every transaction of the call reads the clock
   itself, so the window may expire between any two of them.
   */
  datatype Plan = Plan(
    context: bool,
    preparing: seq<Tick>,
    media: bool,
    image: bool,
    validatedAt: nat,
    uploading: seq<Tick>,
    upload: bool,
    startedAt: nat,
    sending: seq<Tick>,
    reply: Reply,
    finishedAt: nat)

  /** Transactions of others. */
  ghost function Play(db: Db, others: seq<Tick>): Db
    decreases |others|
  {
    if others == [] then db else Play(Next(db, others[0]), others[1..])
  }

  /** `#releasePending`. */
  ghost function GiveUp(db: Db, key: AttemptKey, expired: bool, now: nat): Db {
    After(db, ReleasePending(db, key, expired, now))
  }

  /** `#transmit`, once the provider has answered. */
  ghost function Conclude(db: Db, key: AttemptKey, reply: Reply, now: nat): Db {
    match reply
    case Sent(id) => After(db, CompleteSend(db, key, id, now))
    case Rejected(code) => After(db, FailSend(db, key, code, now))
    case Unknown(code) => After(db, MarkUncertain(db, key, code, now))
  }

  /** `#executeText` and `#executeImage` from the reservation on. */
  ghost function Drive(db: Db, token: Token, key: AttemptKey, plan: Plan): Db {
    if !plan.context then GiveUp(db, key, false, plan.finishedAt)
    else
      var prepared := Play(db, plan.preparing);
      if !plan.media then GiveUp(prepared, key, false, plan.finishedAt)
      else
        var pending := PendingError(prepared, token, key, plan.validatedAt);
        if plan.image && pending.Some? then
          GiveUp(prepared, key, pending.value == ReplyWindowExpiredError, plan.finishedAt)
        else
          Transmit(Play(prepared, plan.uploading), token, key, plan)
  }

  /** The end of the call, from the upload on. */
  ghost function Transmit(uploaded: Db, token: Token, key: AttemptKey, plan: Plan): Db {
    if !plan.upload then GiveUp(uploaded, key, false, plan.finishedAt)
    else
      var started := StartReply(uploaded, token, key, plan.startedAt);
      if started.Rollback? then GiveUp(uploaded, key, started.error == ReplyWindowExpiredError, plan.finishedAt)
      else Conclude(Play(started.db, plan.sending), key, plan.reply, plan.finishedAt)
  }

  /** The whole call: the attempt that it made, if any, and the database afterwards. */
  ghost function Execute(db: Db, token: Token, plan: Plan, now: nat): (Db, Option<AttemptKey>) {
    var prepared := PrepareReply(db, token, true, now);
    if prepared.Rollback? then (db, None)
    else if prepared.value.Rejected? then (prepared.db, Some(prepared.value.key))
    else (Drive(prepared.db, token, prepared.value.key, plan), Some(prepared.value.key))
  }

  // ---------------------------------------------------------------- what others may do

  /**
   Nobody else puts the attempt on the wire, since calls are serialized and an attempt belongs to its call;
   and its key is not used again while the call lasts. The row may disappear with its account.
   */
  ghost predicate Respects(db: Db, others: seq<Tick>, key: AttemptKey)
    decreases |others|
  {
    others != [] ==>
      var next := Next(db, others[0]);
      && (key in next.attempts ==> key in db.attempts)
      && (key in next.attempts && next.attempts[key].status == Sending ==> db.attempts[key].status == Sending)
      && Respects(next, others[1..], key)
  }

  /** The others respect the attempt at every await that the call reaches. */
  ghost predicate Respected(db: Db, token: Token, key: AttemptKey, plan: Plan) {
    && Respects(db, plan.preparing, key)
    && (var prepared := Play(db, plan.preparing);
        && Respects(prepared, plan.uploading, key)
        && SendRespected(Play(prepared, plan.uploading), token, key, plan))
  }

  ghost predicate SendRespected(uploaded: Db, token: Token, key: AttemptKey, plan: Plan) {
    var started := StartReply(uploaded, token, key, plan.startedAt);
    started.Commit? ==>
      && Respects(started.db, plan.sending, key)
      && (plan.reply.Sent? ==> plan.reply.id != "" && FreshFor(Play(started.db, plan.sending), key, plan.reply.id))
  }

  /** The random client id is new. */
  ghost predicate FreshFor(db: Db, key: AttemptKey, id: string) {
    key in db.attempts ==> !IdTaken(db.attempts, key, id)
  }

  /** If the attempt is still there, it is in one of the statuses. */
  ghost predicate Held(db: Db, key: AttemptKey, statuses: set<SendStatus>) {
    && Inv(db)
    && (key in db.attempts ==> db.attempts[key].conv.channel == WeixinIlink && db.attempts[key].status in statuses)
  }

  lemma {:induction false} PlayKeeps(db: Db, others: seq<Tick>, key: AttemptKey, statuses: set<SendStatus>)
    requires Held(db, key, statuses) && Respects(db, others, key)
    requires statuses == {Pending, FailedSend} || statuses == {Sending, Accepted, FailedSend, Uncertain}
    ensures Held(Play(db, others), key, statuses)
    decreases |others|
  {
    hide Inv, StepOk, Next;
    if others != [] {
      NextKeeps(db, others[0]);
      if key in Next(db, others[0]).attempts { StepAttempt(db, Next(db, others[0]), key); }
      PlayKeeps(Next(db, others[0]), others[1..], key, statuses);
    }
  }

  const SETTLED: set<SendStatus> := {Accepted, FailedSend, Uncertain}

  lemma GiveUpSettles(db: Db, key: AttemptKey, expired: bool, now: nat)
    requires Held(db, key, {Pending, FailedSend})
    ensures Held(GiveUp(db, key, expired, now), key, SETTLED)
  {
    hide Inv;
    ReleasePendingKeeps(db, key, expired, now);
    NoCounterConflict(db, 0, key, false, expired, now);
  }

  lemma FinishSettles(db: Db, key: AttemptKey, status: SendStatus, id: string, reason: Reason, now: nat)
    requires Held(db, key, {Sending, Accepted, FailedSend, Uncertain}) && status in {Accepted, Uncertain}
    requires id != "" ==> FreshFor(db, key, id)
    ensures Held(After(db, FinishSending(db, key, status, id, reason, now)), key, SETTLED)
  {
    FinishSendingKeeps(db, key, status, id, reason, now);
    hide Inv, Settle;
    if key in db.attempts && db.attempts[key].status == Sending {
      SettleAttempts(db.(attempts := db.attempts[key := db.attempts[key].(
        status := status, providerMessageId := id, reason := reason, updatedAt := now)]), key.source, now);
    }
  }

  lemma SettleAttempts(db: Db, key: MessageKey, now: nat)
    ensures Settle(db, key, now).attempts == db.attempts
  {
    SettleOnly(db, key, now);
    hide Settle;
  }

  lemma ConcludeSettles(db: Db, key: AttemptKey, reply: Reply, now: nat)
    requires Held(db, key, {Sending, Accepted, FailedSend, Uncertain})
    requires reply.Sent? ==> reply.id != "" && FreshFor(db, key, reply.id)
    ensures Held(Conclude(db, key, reply, now), key, SETTLED)
  {
    hide Inv, FinishSending, Settle;
    match reply
    case Sent(id) => FinishSettles(db, key, Accepted, id, NoReason, now);
    case Unknown(code) => FinishSettles(db, key, Uncertain, "", ProviderError(code), now);
    case Rejected(code) =>
      FailSendKeeps(db, key, code, now);
      if key in db.attempts && db.attempts[key].status == Sending {
        SettleAttempts(db.(attempts := db.attempts[key := db.attempts[key].(
          status := FailedSend, reason := ProviderError(code), updatedAt := now)]), key.source, now);
      }
  }

  lemma StartHolds(db: Db, token: Token, key: AttemptKey, now: nat)
    requires Held(db, key, {Pending, FailedSend}) && StartReply(db, token, key, now).Commit?
    ensures Held(StartReply(db, token, key, now).db, key, {Sending, Accepted, FailedSend, Uncertain})
  {
    hide Inv;
    StartReplyKeeps(db, token, key, now);
  }

  /** From the reservation on, every path of the call ends with a final outcome. */
  lemma DriveSettles(db: Db, token: Token, key: AttemptKey, plan: Plan)
    requires Held(db, key, {Pending, FailedSend}) && Respected(db, token, key, plan)
    ensures Held(Drive(db, token, key, plan), key, SETTLED)
  {
    hide Held, Play, Respects, GiveUp, Transmit, SendRespected, PendingError;
    if !plan.context {
      GiveUpSettles(db, key, false, plan.finishedAt);
    } else {
      PlayKeeps(db, plan.preparing, key, {Pending, FailedSend});
      var prepared := Play(db, plan.preparing);
      if !plan.media {
        GiveUpSettles(prepared, key, false, plan.finishedAt);
      } else {
        var pending := PendingError(prepared, token, key, plan.validatedAt);
        if plan.image && pending.Some? {
          GiveUpSettles(prepared, key, pending.value == ReplyWindowExpiredError, plan.finishedAt);
        } else {
          PlayKeeps(prepared, plan.uploading, key, {Pending, FailedSend});
          TransmitSettles(Play(prepared, plan.uploading), token, key, plan);
        }
      }
    }
  }

  lemma TransmitSettles(uploaded: Db, token: Token, key: AttemptKey, plan: Plan)
    requires Held(uploaded, key, {Pending, FailedSend}) && SendRespected(uploaded, token, key, plan)
    ensures Held(Transmit(uploaded, token, key, plan), key, SETTLED)
  {
    hide Held, Play, Respects, GiveUp, Conclude, FreshFor, StartReply;
    var started := StartReply(uploaded, token, key, plan.startedAt);
    if !plan.upload {
      GiveUpSettles(uploaded, key, false, plan.finishedAt);
    } else if started.Rollback? {
      GiveUpSettles(uploaded, key, started.error == ReplyWindowExpiredError, plan.finishedAt);
    } else {
      StartHolds(uploaded, token, key, plan.startedAt);
      PlayKeeps(started.db, plan.sending, key, {Sending, Accepted, FailedSend, Uncertain});
      ConcludeSettles(Play(started.db, plan.sending), key, plan.reply, plan.finishedAt);
    }
  }

  /**
   No tool call leaves its attempt pending or on the wire: whatever fails, expires or is answered, and
   whatever others do meanwhile, the attempt ends accepted, failed or uncertain if its row survives.
   */
  lemma ExecutionSettles(db: Db, token: Token, plan: Plan, now: nat)
    requires Inv(db)
    requires var prepared := PrepareReply(db, token, true, now);
      prepared.Commit? && prepared.value.Reserved? ==> Respected(prepared.db, token, prepared.value.key, plan)
    ensures var (after, key) := Execute(db, token, plan, now);
      && Inv(after)
      && (key.Some? && key.value in after.attempts ==>
            after.attempts[key.value].status in {Accepted, FailedSend, Uncertain})
      && (key.None? <==> PrepareReply(db, token, true, now).Rollback?)
  {
    hide Inv, Drive, Respected;
    var prepared := PrepareReply(db, token, true, now);
    if prepared.Commit? {
      PrepareReplyKeeps(db, token, true, now);
      PrepareShape(db, token, true, now);
      SessionFacts(db, token);
      WindowFacts(db, db.sessions[token].window.value);
      hide PrepareReply;
      if prepared.value.Reserved? { DriveSettles(prepared.db, token, prepared.value.key, plan); }
    }
  }

  /** A window that expires before the transmission: the release says so, and the attempt has failed for it. */
  lemma ExpiryIsRecorded(uploaded: Db, token: Token, key: AttemptKey, plan: Plan)
    requires Held(uploaded, key, {Pending}) && key in uploaded.attempts && plan.upload
    requires SessionError(uploaded, token, plan.startedAt) == Some(ReplyWindowExpiredError)
    ensures var after := Transmit(uploaded, token, key, plan);
      && key in after.attempts && after.attempts[key].status == FailedSend
      && after.attempts[key].reason == ReplyWindowExpired
      && after.sent == uploaded.sent
  {
    hide Inv, SessionError;
    NoCounterConflict(uploaded, token, key, false, true, plan.finishedAt);
  }

  // ---------------------------------------------------------------- which outcome

  /** The attempt has failed without going on the wire, for want of time or of anything else. */
  ghost predicate GivenUp(db: Db, after: Db, key: AttemptKey, expired: bool) {
    && key in after.attempts && after.attempts[key].status == FailedSend && after.sent == db.sent
    && after.attempts[key].reason == (if expired then ReplyWindowExpired else CancelledBeforeTransmit)
  }

  lemma PendingIsGivenUp(db: Db, key: AttemptKey, expired: bool, now: nat)
    requires Inv(db) && key in db.attempts && db.attempts[key].conv.channel == WeixinIlink
    requires db.attempts[key].status == Pending
    ensures GivenUp(db, GiveUp(db, key, expired, now), key, expired)
  {
    ReplyIsReleased(db, key, expired, now);
    hide Inv, ReleasePending;
  }

  /** What the provider's answer makes of an attempt on the wire. */
  ghost predicate Answers(db: Db, after: Db, key: AttemptKey, reply: Reply) {
    && key in db.attempts && key in after.attempts && after.sent == db.sent
    && var a, a' := db.attempts[key], after.attempts[key];
       match reply
       case Sent(id) => a' == a.(status := Accepted, providerMessageId := id, reason := NoReason,
         updatedAt := a'.updatedAt)
       case Rejected(code) => a' == a.(status := FailedSend, reason := ProviderError(code), updatedAt := a'.updatedAt)
       case Unknown(code) =>
         a' == a.(status := Uncertain, providerMessageId := "", reason := ProviderError(code),
           updatedAt := a'.updatedAt)
  }

  /** An acknowledged attempt is accepted with its id, a refused one has failed, and any other is uncertain. */
  lemma AnswerIsRecorded(db: Db, key: AttemptKey, reply: Reply, now: nat)
    requires key in db.attempts && db.attempts[key].status == Sending && db.attempts[key].conv.channel == WeixinIlink
    requires reply.Sent? ==> reply.id != "" && FreshFor(db, key, reply.id)
    ensures Answers(db, Conclude(db, key, reply, now), key, reply)
  {
    var a := db.attempts[key];
    match reply
    case Sent(id) =>
      SettledIs(db, key, a.(status := Accepted, providerMessageId := id, reason := NoReason, updatedAt := now), now);
      hide Settle;
    case Rejected(code) =>
      SettledIs(db, key, a.(status := FailedSend, reason := ProviderError(code), updatedAt := now), now);
      hide Settle;
    case Unknown(code) =>
      SettledIs(db, key, a.(status := Uncertain, providerMessageId := "", reason := ProviderError(code),
        updatedAt := now), now);
      hide Settle;
  }

  lemma SettledIs(db: Db, key: AttemptKey, a: Attempt, now: nat)
    ensures var after := Settle(db.(attempts := db.attempts[key := a]), key.source, now);
      after.attempts == db.attempts[key := a] && after.sent == db.sent
  {
    SettleOnly(db.(attempts := db.attempts[key := a]), key.source, now);
    hide Settle;
  }

  /**
   A transmission whose attempt nobody else touches: its outcome is what the provider answered, and the window has
   one send more.
   */
  lemma TransmissionOutcome(uploaded: Db, token: Token, key: AttemptKey, plan: Plan)
    requires plan.upload && StartReply(uploaded, token, key, plan.startedAt).Commit?
    requires var answered := Play(StartReply(uploaded, token, key, plan.startedAt).db, plan.sending);
      && key in answered.attempts && answered.attempts[key].status == Sending
      && answered.attempts[key].conv.channel == WeixinIlink
      && (plan.reply.Sent? ==> plan.reply.id != "" && FreshFor(answered, key, plan.reply.id))
    ensures var answered := Play(StartReply(uploaded, token, key, plan.startedAt).db, plan.sending);
      Answers(answered, Transmit(uploaded, token, key, plan), key, plan.reply)
  {
    hide StartReply, Play, Conclude, FreshFor, Answers;
    AnswerIsRecorded(Play(StartReply(uploaded, token, key, plan.startedAt).db, plan.sending), key, plan.reply,
                     plan.finishedAt);
  }

  /** The call goes through on its own: nobody else writes, and the client id is new. */
  ghost predicate Alone(db: Db, key: AttemptKey, plan: Plan) {
    && plan.preparing == [] && plan.uploading == [] && plan.sending == []
    && (plan.reply.Sent? ==> plan.reply.id != "" && FreshFor(db, key, plan.reply.id))
  }

  /** What becomes of a call that goes through on its own. */
  ghost predicate Ends(db: Db, after: Db, token: Token, key: AttemptKey, plan: Plan) {
    var pending, started := PendingError(db, token, key, plan.validatedAt), StartReply(db, token, key, plan.startedAt);
    if !plan.context || !plan.media then GivenUp(db, after, key, false)
    else if plan.image && pending.Some? then GivenUp(db, after, key, pending.value == ReplyWindowExpiredError)
    else if !plan.upload then GivenUp(db, after, key, false)
    else if started.Rollback? then GivenUp(db, after, key, started.error == ReplyWindowExpiredError)
    else Answers(started.db, after, key, plan.reply)
  }

  lemma StartedIsSending(db: Db, token: Token, key: AttemptKey, now: nat)
    requires StartReply(db, token, key, now).Commit?
    ensures var after := StartReply(db, token, key, now).db;
      && key in db.attempts && key in after.attempts && after.attempts[key].status == Sending
      && after.attempts[key].conv == db.attempts[key].conv
      && forall id :: FreshFor(db, key, id) ==> FreshFor(after, key, id)
  {
    hide SessionError, SendingIn;
  }

  /**
   Every call that goes through on its own ends as it must: without its context or its media it is cancelled, a
   window that expired in between is the reason recorded, and otherwise the attempt ends as the provider answered.
   */
  lemma CallOutcome(db: Db, token: Token, key: AttemptKey, plan: Plan)
    requires Inv(db) && key in db.attempts && db.attempts[key].conv.channel == WeixinIlink
    requires db.attempts[key].status == Pending && Alone(db, key, plan)
    ensures Ends(db, Drive(db, token, key, plan), token, key, plan)
  {
    hide Inv, GiveUp, GivenUp, Answers, Conclude, StartReply, PendingError, FreshFor;
    PendingIsGivenUp(db, key, false, plan.finishedAt);
    PendingIsGivenUp(db, key, true, plan.finishedAt);
    var started := StartReply(db, token, key, plan.startedAt);
    if started.Commit? {
      StartedIsSending(db, token, key, plan.startedAt);
      AnswerIsRecorded(started.db, key, plan.reply, plan.finishedAt);
    }
  }
}
