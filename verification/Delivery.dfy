/** An acknowledged send and its delivery failure may be reported in either order. */
module Delivery {
  import opened Basics
  import opened Tables
  import opened Ledger
  import opened Inbox
  import opened Invariants
  import opened InboxProofs
  import opened Steps

  /** Attempts and failures without their time stamps. */
  function Timeless(a: Attempt): Attempt { a.(updatedAt := 0) }

  function TimelessFailure(f: Failure): Failure { f.(observedAt := 0, matchedAt := 0) }

  /** Two databases agree up to the time stamps of attempts and failures. */
  ghost predicate SameButTimes(one: Db, other: Db) {
    && other == one.(attempts := other.attempts, failures := other.failures)
    && one.attempts.Keys == other.attempts.Keys && one.failures.Keys == other.failures.Keys
    && (forall k :: k in one.attempts ==> Timeless(one.attempts[k]) == Timeless(other.attempts[k]))
    && (forall f :: f in one.failures ==> TimelessFailure(one.failures[f]) == TimelessFailure(other.failures[f]))
  }

  /** The provider has not used the id before. */
  predicate FreshId(attempts: map<AttemptKey, Attempt>, id: string) {
    forall k :: k in attempts && attempts[k].conv.channel == WechatKf ==> attempts[k].providerMessageId != id
  }

  predicate OnTheWire(db: Db, key: AttemptKey, id: string) {
    key in db.attempts && db.attempts[key].status == Sending && db.attempts[key].conv.channel == WechatKf
      && id != "" && FreshId(db.attempts, id)
  }

  /** The acknowledged attempt. */
  function Acknowledged(a: Attempt, id: string, now: nat): Attempt {
    a.(status := Accepted, providerMessageId := id, reason := NoReason, updatedAt := now)
  }

  function Undelivered(a: Attempt, id: string, failType: int, now: nat): Attempt {
    a.(status := FailedSend, providerMessageId := id, reason := MsgSendFail, failType := failType, updatedAt := now)
  }

  /** The database once the attempt is acknowledged, without looking at recorded failures. */
  function Acked(db: Db, key: AttemptKey, id: string, now: nat): Db
    requires key in db.attempts
  {
    Settle(db.(attempts := db.attempts[key := Acknowledged(db.attempts[key], id, now)]), key.source, now)
  }

  /** Settling does not depend on recorded failures. */
  lemma SettleElsewhere(db: Db, failures: map<string, Failure>, key: MessageKey, now: nat)
    ensures Settle(db.(failures := failures), key, now) == Settle(db, key, now).(failures := failures)
  {
    var other := db.(failures := failures);
    assert SettleCase(other, key, now) == SettleCase(db, key, now);
    SettleByCase(db, key, now);
    SettleByCase(other, key, now);
    hide Settle, SettleCase;
  }

  /** Whether the message settles. */
  predicate SettleCase(db: Db, key: MessageKey, now: nat) {
    && !(exists k :: k in db.attempts && k.source == key && db.attempts[k].status in {Pending, Sending})
    && !(exists t :: t in db.sessions && db.sessions[t].source == key && Live(now, db.sessions[t]))
    && key in db.messages && !LaterCustomer(db.messages, key)
    && db.messages[key].status in {Ready, Processing, Preparing}
  }

  lemma SettleByCase(db: Db, key: MessageKey, now: nat)
    ensures SettleCase(db, key, now) ==> key in db.messages
    ensures Settle(db, key, now) == if SettleCase(db, key, now) then SetStatus(db, key, Completed, false, now) else db
  {
    hide LaterCustomer;
  }

  lemma CompleteShape(db: Db, key: AttemptKey, id: string, now: nat)
    requires OnTheWire(db, key, id)
    ensures var acked := Acked(db, key, id, now);
      && acked.attempts == db.attempts[key := Acknowledged(db.attempts[key], id, now)] && acked.failures == db.failures
      && CompleteSend(db, key, id, now) == Commit(
           if id in db.failures then ApplyFailure(acked, key, db.failures[id].failType, now) else acked, ())
  {
    SettleOnly(db.(attempts := db.attempts[key := Acknowledged(db.attempts[key], id, now)]), key.source, now);
    hide Settle;
  }

  /** A failure that finds no accepted attempt is only recorded. */
  lemma ObserveOnly(db: Db, id: string, failType: int, now: nat)
    requires id != "" && forall k :: !AcceptedAs(db.attempts, k, id)
    ensures MarkMsgFailed(db, id, failType, now) == Commit(Observe(db, id, failType, now), false)
  {}

  /** A failure that finds the only accepted attempt with the id revokes it. */
  lemma ObserveAccepted(db: Db, key: AttemptKey, id: string, failType: int, now: nat)
    requires id != "" && AcceptedAs(db.attempts, key, id)
    requires forall k :: AcceptedAs(db.attempts, k, id) ==> k == key
    ensures MarkMsgFailed(db, id, failType, now) ==
      Commit(ApplyFailure(Observe(db, id, failType, now), key, failType, now), true)
  {}

  /** The acknowledgement first, then the failure. */
  ghost function AckThenFail(db: Db, key: AttemptKey, id: string, failType: int, ackAt: nat, failAt: nat): Db {
    var acked := After(db, CompleteSend(db, key, id, ackAt));
    After(acked, MarkMsgFailed(acked, id, failType, failAt))
  }

  /** The failure first, then the acknowledgement. */
  ghost function FailThenAck(db: Db, key: AttemptKey, id: string, failType: int, ackAt: nat, failAt: nat): Db {
    var failed := After(db, MarkMsgFailed(db, id, failType, failAt));
    After(failed, CompleteSend(failed, key, id, ackAt))
  }

  /** Failure first: the attempt fails with the reported type. */
  lemma FailThenAckShape(db: Db, key: AttemptKey, id: string, failType: int, ackAt: nat, failAt: nat)
    requires OnTheWire(db, key, id)
    ensures FailThenAck(db, key, id, failType, ackAt, failAt) == Acked(db, key, id, ackAt).(
      attempts := db.attempts[key := Undelivered(db.attempts[key], id, failType, ackAt)],
      failures := db.failures[id := Failure(failType, failAt, Some(key), ackAt)])
  {
    ObserveOnly(db, id, failType, failAt);
    var observed := Observe(db, id, failType, failAt);
    CompleteShape(observed, key, id, ackAt);
    SettleElsewhere(db.(attempts := db.attempts[key := Acknowledged(db.attempts[key], id, ackAt)]), observed.failures,
                    key.source, ackAt);
    hide Settle;
    assert Acked(observed, key, id, ackAt) == Acked(db, key, id, ackAt).(failures := observed.failures);
  }

  /** Acknowledgement first, and a failure was recorded before: the attempt keeps the recorded type. */
  lemma AckThenFailKnown(db: Db, key: AttemptKey, id: string, failType: int, ackAt: nat, failAt: nat)
    requires OnTheWire(db, key, id) && id in db.failures
    ensures AckThenFail(db, key, id, failType, ackAt, failAt) == Acked(db, key, id, ackAt).(
      attempts := db.attempts[key := Undelivered(db.attempts[key], id, db.failures[id].failType, ackAt)],
      failures := db.failures[id := Failure(failType, failAt, Some(key), ackAt)])
  {
    CompleteShape(db, key, id, ackAt);
    var acked := Acked(db, key, id, ackAt);
    hide Settle, Acked, CompleteSend, MarkMsgFailed;
    var failed := ApplyFailure(acked, key, db.failures[id].failType, ackAt);
    ObserveOnly(failed, id, failType, failAt);
  }

  /** Acknowledgement first, and no failure was recorded before. */
  lemma AckThenFailNew(db: Db, key: AttemptKey, id: string, failType: int, ackAt: nat, failAt: nat)
    requires OnTheWire(db, key, id) && id !in db.failures
    ensures AckThenFail(db, key, id, failType, ackAt, failAt) == Acked(db, key, id, ackAt).(
      attempts := db.attempts[key := Undelivered(db.attempts[key], id, failType, failAt)],
      failures := db.failures[id := Failure(failType, failAt, Some(key), failAt)])
  {
    CompleteShape(db, key, id, ackAt);
    var acked := Acked(db, key, id, ackAt);
    hide Settle, Acked, CompleteSend, MarkMsgFailed;
    assert AcceptedAs(acked.attempts, key, id);
    ObserveAccepted(acked, key, id, failType, failAt);
    var observed := Observe(acked, id, failType, failAt);
    assert observed.failures == db.failures[id := Failure(failType, failAt, None, 0)];
    assert observed.attempts[key] == Acknowledged(db.attempts[key], id, ackAt);
  }

  /** Databases that differ in one attempt and one failure. */
  lemma SameButOne(base: Db, key: AttemptKey, a: Attempt, a': Attempt, id: string, f: Failure, f': Failure)
    ensures SameButTimes(base.(attempts := base.attempts[key := a], failures := base.failures[id := f]),
                         base.(attempts := base.attempts[key := a'], failures := base.failures[id := f']))
      <==> Timeless(a) == Timeless(a') && TimelessFailure(f) == TimelessFailure(f')
  {
    hide Timeless, TimelessFailure;
    var one := base.(attempts := base.attempts[key := a], failures := base.failures[id := f]);
    var other := base.(attempts := base.attempts[key := a'], failures := base.failures[id := f']);
    assert one.attempts[key] == a && other.attempts[key] == a' && one.failures[id] == f && other.failures[id] == f';
  }

  /**
   Both orders end in the same database, up to time stamps, exactly when no failure with another type
   was recorded for the id before.
   */
  lemma DeliveryConfluent(db: Db, key: AttemptKey, id: string, failType: int, ackAt: nat, failAt: nat, failAt': nat)
    requires OnTheWire(db, key, id)
    ensures SameButTimes(AckThenFail(db, key, id, failType, ackAt, failAt),
      FailThenAck(db, key, id, failType, ackAt, failAt'))
      <==> (id in db.failures ==> db.failures[id].failType == failType)
  {
    var base := Acked(db, key, id, ackAt).(attempts := db.attempts, failures := db.failures);
    var ours, theirs := Undelivered(db.attempts[key], id, failType, ackAt),
      Failure(failType, failAt', Some(key), ackAt);
    FailThenAckShape(db, key, id, failType, ackAt, failAt');
    hide Acked, AckThenFail, FailThenAck, FreshId, SameButTimes;
    if id in db.failures {
      AckThenFailKnown(db, key, id, failType, ackAt, failAt);
      SameButOne(base, key, Undelivered(db.attempts[key], id, db.failures[id].failType, ackAt), ours,
                 id, Failure(failType, failAt, Some(key), ackAt), theirs);
    } else {
      AckThenFailNew(db, key, id, failType, ackAt, failAt);
      SameButOne(base, key, Undelivered(db.attempts[key], id, failType, failAt), ours,
                 id, Failure(failType, failAt, Some(key), failAt), theirs);
    }
  }

  /** In either order the attempt has failed and its failure row names it. */
  lemma FailureIsMatched(db: Db, key: AttemptKey, id: string, failType: int, ackAt: nat, failAt: nat)
    requires OnTheWire(db, key, id)
    ensures forall after :: after in {AckThenFail(db, key, id, failType, ackAt, failAt),
      FailThenAck(db, key, id, failType, ackAt, failAt)} ==>
      && key in after.attempts && after.attempts[key].status == FailedSend && after.attempts[key].reason == MsgSendFail
      && id in after.failures && after.failures[id].matched == Some(key) && after.failures[id].failType == failType
  {
    if id in db.failures {
      AckThenFailKnown(db, key, id, failType, ackAt, failAt);
    } else {
      AckThenFailNew(db, key, id, failType, ackAt, failAt);
    }
    FailThenAckShape(db, key, id, failType, ackAt, failAt);
    hide Acked, AckThenFail, FailThenAck, FreshId;
  }

  /**
   A refused attempt has failed for good, a second refusal changes nothing, and its message completes exactly
   if nothing else of it is outstanding.
   */
  lemma RejectionIsFinal(db: Db, key: AttemptKey, code: string, now: nat, again: string, later: nat)
    requires key in db.attempts && db.attempts[key].status == Sending
    ensures var txn := FailSend(db, key, code, now);
      && txn.Commit? && key in txn.db.attempts && txn.db.attempts[key].status == FailedSend
      && FailSend(txn.db, key, again, later) == Commit(txn.db, ())
      && (key.source in db.messages && db.messages[key.source].status != Completed ==>
            key.source in txn.db.messages
            && (txn.db.messages[key.source].status == Completed <==>
                  SettleCase(db.(attempts := txn.db.attempts), key.source, now)))
  {
    var failed := db.(attempts := db.attempts[key := db.attempts[key].(
      status := FailedSend, reason := ProviderError(code), updatedAt := now)]);
    SettleOnly(failed, key.source, now);
    SettleByCase(failed, key.source, now);
    hide Settle, SettleCase;
  }
}
