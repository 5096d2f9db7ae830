/** A run that uses up a reply window: ten replies are transmitted, the eleventh is refused. */
module FullWindow {
  import opened Basics
  import opened Tables
  import opened Ledger
  import opened Inbox
  import opened PageCommit
  import opened Invariants
  import opened Events
  import opened Runs
  import opened Safety
  import opened Quota
  import opened Witnesses

  /** The provider's id of reply `n`. */
  function IdOf(n: nat): string { seq(n + 1, _ => 'x') }

  function ReplyTicks(n: nat): seq<Tick> {
    [Tick(Prepare(0, true), 0), Tick(Start(0, AttemptKey(KEY, n)), 0), Tick(Accept(AttemptKey(KEY, n), IdOf(n)), 0)]
  }

  /** The opened window, answered `n` times. */
  function Replies(n: nat): seq<Tick> {
    if n == 0 then OPENED else Replies(n - 1) + ReplyTicks(n - 1)
  }

  /** The session still answers through the window, which has transmitted `n` replies; all were accepted. */
  ghost predicate AnsweredTimes(db: Db, n: nat) {
    && 0 in db.sessions && 1 in db.windows && db.sessions[0].source == KEY
    && Bound(db, 0, 1, 0) && Usable(db.windows[1], 0)
    && db.windows[1].conv == CONV && db.windows[1].reserved == 0 && db.windows[1].transmitted == n
    && (forall k :: k in db.attempts <==> k.source == KEY && k.index < n)
    && (forall k :: k in db.attempts ==> Acknowledges(db.attempts[k], IdOf(k.index)))
  }

  ghost predicate Acknowledges(a: Attempt, id: string) {
    a.status == Accepted && a.providerMessageId == id && a.window == Some(1) && a.conv == CONV
  }

  lemma NoReplyYet(db: Db)
    requires Inv(db) && Answering(db)
    ensures AnsweredTimes(db, 0)
  {
    hide Inv;
  }

  lemma NextPrepare(db: Db)
    ensures Next(db, Tick(Prepare(0, true), 0)) == After(db, PrepareReply(db, 0, true, 0))
  {
    hide PrepareReply;
  }

  lemma NextStart(db: Db, key: AttemptKey)
    ensures Next(db, Tick(Start(0, key), 0)) == After(db, StartReply(db, 0, key, 0))
  {
    hide StartReply;
  }

  /** Reply `n` is reserved. */
  ghost predicate Pends(db: Db, prepared: Db, n: nat) {
    var key := AttemptKey(KEY, n);
    && 1 in db.windows && OnlyAt(db, prepared, key, 1) && prepared.attempts[key].status == Pending
    && prepared.attempts[key].window == Some(1) && prepared.attempts[key].conv == CONV
    && Counts(db.windows[1], prepared.windows[1], 1, 1, 0)
  }

  lemma ReservedIs(db: Db, txn: Txn<Prepared>, n: nat)
    requires AnsweredTimes(db, n) && n < 10 && Reserves(db, txn, KEY, 1)
    ensures Pends(db, txn.db, n)
  {
    var key := txn.value.key;
    assert key.index > 0 ==> AttemptKey(KEY, key.index - 1) in db.attempts;
    assert n > 0 ==> AttemptKey(KEY, n - 1) in db.attempts;
    assert key == AttemptKey(KEY, n);
    hide Bound;
  }

  lemma AnsweredFacts(db: Db, n: nat)
    requires AnsweredTimes(db, n) && n <= 10
    ensures 0 in db.sessions && 1 in db.windows && Bound(db, 0, 1, 0) && db.sessions[0].source == KEY
    ensures AttemptKey(KEY, 999) !in db.attempts
    ensures db.windows[1].state == Open && 0 < db.windows[1].expiresAt
    ensures db.windows[1].reserved == 0 && db.windows[1].transmitted == n
  {}

  lemma Reserve(db: Db, n: nat)
    requires Inv(db) && AnsweredTimes(db, n) && n < 10
    ensures Pends(db, Next(db, Tick(Prepare(0, true), 0)), n)
  {
    hide *;
    AnsweredFacts(db, n);
    ReplyIsReserved(db, 0, 1, true, 0);
    NextPrepare(db);
    ReservesCommits(db, PrepareReply(db, 0, true, 0), KEY, 1);
    ReservedIs(db, PrepareReply(db, 0, true, 0), n);
  }

  lemma ReservesCommits(db: Db, txn: Txn<Prepared>, source: MessageKey, w: WindowId)
    requires Reserves(db, txn, source, w)
    ensures txn.Commit? && After(db, txn) == txn.db
  {}

  lemma PreparedIsStartable(db: Db, prepared: Db, n: nat)
    requires AnsweredTimes(db, n) && Pends(db, prepared, n)
    ensures Startable(prepared, 0, 1, AttemptKey(KEY, n), 0)
  {
    forall k | k in prepared.attempts && prepared.attempts[k].conv == CONV
      ensures prepared.attempts[k].status != Sending
    {
      if k != AttemptKey(KEY, n) { assert Acknowledges(db.attempts[k], IdOf(k.index)); }
    }
  }

  lemma Transmit(db: Db, prepared: Db, n: nat)
    requires AnsweredTimes(db, n) && Inv(prepared) && Pends(db, prepared, n)
    ensures InFlight(db, prepared, Next(prepared, Tick(Start(0, AttemptKey(KEY, n)), 0)), n)
  {
    hide *;
    var key := AttemptKey(KEY, n);
    PreparedIsStartable(db, prepared, n);
    PendsFacts(db, prepared, n);
    ReplyIsStarted(prepared, 0, 1, key, 0);
    NextStart(prepared, key);
    CommitsAfter(prepared, StartReply(prepared, 0, key, 0));
    FlightIs(db, prepared, Next(prepared, Tick(Start(0, key), 0)), n);
  }

  lemma PendsFacts(db: Db, prepared: Db, n: nat)
    requires Pends(db, prepared, n)
    ensures AttemptKey(KEY, n) in prepared.attempts
  {}

  lemma CommitsAfter(db: Db, txn: Txn<AttemptKey>)
    requires txn.Commit?
    ensures After(db, txn) == txn.db
  {}

  lemma FlightIs(db: Db, prepared: Db, started: Db, n: nat)
    requires Pends(db, prepared, n) && AttemptKey(KEY, n) in prepared.attempts
    requires Moves(prepared, started, AttemptKey(KEY, n),
                   prepared.attempts[AttemptKey(KEY, n)].(status := Sending, updatedAt := 0), 1, 1, multiset{1})
    ensures InFlight(db, prepared, started, n)
  {}

  lemma Acknowledge(db: Db, key: AttemptKey, id: string)
    requires key in db.attempts && db.attempts[key].status == Sending && db.attempts[key].conv == CONV && id != ""
    requires forall k :: k in db.attempts && k != key ==> db.attempts[k].providerMessageId != id
    requires 0 in db.sessions && db.sessions[0].source == key.source && Live(0, db.sessions[0])
    ensures Next(db, Tick(Accept(key, id), 0)) == db.(attempts := db.attempts[key := db.attempts[key].(
      status := Accepted, providerMessageId := id, reason := NoReason, updatedAt := 0)])
  {}

  lemma AnswerAgain(db: Db, n: nat)
    requires Inv(db) && AnsweredTimes(db, n) && n < 10
    ensures var ticks := ReplyTicks(n);
      AnsweredTimes(Next(Next(Next(db, ticks[0]), ticks[1]), ticks[2]), n + 1)
  {
    hide *;
    var ticks, key := ReplyTicks(n), AttemptKey(KEY, n);
    TicksAre(n);
    Reserve(db, n);
    var prepared := Next(db, ticks[0]);
    NextKeeps(db, ticks[0]);
    Transmit(db, prepared, n);
    var started := Next(prepared, ticks[1]);
    StartedFacts(db, prepared, started, n);
    Acknowledge(started, key, IdOf(n));
    AnsweredMore(db, prepared, started, n);
  }

  lemma TicksAre(n: nat)
    ensures ReplyTicks(n) == [Tick(Prepare(0, true), 0), Tick(Start(0, AttemptKey(KEY, n)), 0),
                              Tick(Accept(AttemptKey(KEY, n), IdOf(n)), 0)]
  {}

  /** Before the acknowledgement: the reply is on the wire. */
  ghost predicate InFlight(db: Db, prepared: Db, started: Db, n: nat) {
    var key := AttemptKey(KEY, n);
    && Pends(db, prepared, n)
    && Moves(prepared, started, key, prepared.attempts[key].(status := Sending, updatedAt := 0), 1, 1, multiset{1})
  }

  lemma StartedFacts(db: Db, prepared: Db, started: Db, n: nat)
    requires AnsweredTimes(db, n) && InFlight(db, prepared, started, n)
    ensures var key := AttemptKey(KEY, n);
      && key in started.attempts && started.attempts[key].status == Sending && started.attempts[key].conv == CONV
      && IdOf(n) != ""
      && (forall k :: k in started.attempts && k != key ==> started.attempts[k].providerMessageId != IdOf(n))
      && 0 in started.sessions && started.sessions[0].source == KEY && Live(0, started.sessions[0])
  {
    var key := AttemptKey(KEY, n);
    forall k | k in started.attempts && k != key ensures started.attempts[k].providerMessageId != IdOf(n) {
      assert started.attempts[k] == db.attempts[k] && k.index < n && |IdOf(k.index)| != |IdOf(n)|;
    }
  }

  lemma AnsweredMore(db: Db, prepared: Db, started: Db, n: nat)
    requires AnsweredTimes(db, n) && InFlight(db, prepared, started, n) && AttemptKey(KEY, n) in started.attempts
    ensures AnsweredTimes(started.(attempts := started.attempts[AttemptKey(KEY, n) :=
      started.attempts[AttemptKey(KEY, n)].(status := Accepted, providerMessageId := IdOf(n), reason := NoReason,
        updatedAt := 0)]), n + 1)
  {}

  lemma {:induction false} AnswersSoFar(n: nat)
    requires n <= 10
    ensures AnsweredTimes(Final(Replies(n)), n)
  {
    hide Inv, Final, Next, AnsweredTimes, Answering;
    if n == 0 {
      OpenedAnswers();
      Always(OPENED);
      NoReplyYet(Final(OPENED));
    } else {
      AnswersSoFar(n - 1);
      Always(Replies(n - 1));
      AnswerAgain(Final(Replies(n - 1)), n - 1);
      FinalThree(Replies(n - 1), ReplyTicks(n - 1));
    }
  }

  lemma FinalThree(run: seq<Tick>, ticks: seq<Tick>)
    requires |ticks| == 3
    ensures Final(run + ticks) == Next(Next(Next(Final(run), ticks[0]), ticks[1]), ticks[2])
  {
    hide *;
    FinalSnoc(run, ticks[0]);
    FinalSnoc(run + [ticks[0]], ticks[1]);
    FinalSnoc(run + [ticks[0]] + [ticks[1]], ticks[2]);
    assert run + ticks == run + [ticks[0]] + [ticks[1]] + [ticks[2]];
  }

  const ELEVENTH := AttemptKey(KEY, 10)

  /** One window transmits ten replies, all accepted; the eleventh is recorded as refused for want of quota. */
  lemma TenRepliesThenNone()
    ensures var full := Final(Replies(10));
      && 1 in full.windows && full.windows[1].transmitted == 10 && full.windows[1].state == Open
      && (forall i: nat :: i < 10 ==>
            && AttemptKey(KEY, i) in full.attempts
            && full.attempts[AttemptKey(KEY, i)].status == Accepted)
    ensures var after := Final(Replies(10) + [Tick(Prepare(0, true), 0)]);
      && ELEVENTH in after.attempts && after.attempts[ELEVENTH].status == FailedSend
      && after.attempts[ELEVENTH].reason == ReplyQuotaExhausted
      && 1 in after.windows && after.windows[1].transmitted == 10 && after.windows[1].reserved == 0
  {
    hide *;
    AnswersSoFar(10);
    Always(Replies(10));
    FinalSnoc(Replies(10), Tick(Prepare(0, true), 0));
    var full := Final(Replies(10));
    AnsweredFacts(full, 10);
    ReplyIsReserved(full, 0, 1, true, 0);
    NextPrepare(full);
    assert Refusal(full.windows[1], 0) == ReplyQuotaExhaustedError by { RefusedForQuota(full.windows[1]); }
    EleventhIs(full, PrepareReply(full, 0, true, 0));
    TenAccepted(full);
  }

  lemma RefusedForQuota(w: Window)
    requires w.state == Open && 0 < w.expiresAt
    ensures Refusal(w, 0) == ReplyQuotaExhaustedError
  {}

  lemma TenAccepted(db: Db)
    requires AnsweredTimes(db, 10)
    ensures forall i: nat :: i < 10 ==>
      && AttemptKey(KEY, i) in db.attempts
      && db.attempts[AttemptKey(KEY, i)].status == Accepted
  {}

  lemma EleventhIs(db: Db, txn: Txn<Prepared>)
    requires AnsweredTimes(db, 10) && Records(db, txn, KEY, 1, ReplyQuotaExhaustedError)
    ensures var after := After(db, txn);
      && ELEVENTH in after.attempts && after.attempts[ELEVENTH].status == FailedSend
      && after.attempts[ELEVENTH].reason == ReplyQuotaExhausted
      && 1 in after.windows && after.windows[1].transmitted == 10 && after.windows[1].reserved == 0
  {
    var key := txn.value.key;
    assert key.index > 0 ==> AttemptKey(KEY, key.index - 1) in db.attempts;
    assert AttemptKey(KEY, 9) in db.attempts;
    hide Bound;
  }
}
