/** `evaluateAuthorization`, and what its one row per customer says about the whole history. */
module Authorization {
  import opened Basics
  import opened Tables
  import opened Ledger
  import opened Inbox
  import opened Invariants
  import opened InboxProofs

  datatype Decision = Duplicate | AlreadyAuthorized | AuthorizedNow | Blocked

  /** One evaluated message of a customer. */
  datatype Evaluation = Evaluation(key: MessageKey, trigger: bool, required: int)

  /** `Math.max(1, Number(required) || 3)`. */
  function Threshold(required: int): nat {
    if required == 0 then 3 else if required < 1 then 1 else required
  }

  /** The row of a customer after one evaluation. */
  function Step(row: Option<Auth>, e: Evaluation): Auth {
    if row.Some? && (row.value.authorized || row.value.lastMessage == Some(e.key)) then row.value
    else
      var count := if !e.trigger then 0
                   else if row.Some? && row.value.lastAccount == e.key.account then row.value.count + 1
                   else 1;
      Auth(count >= Threshold(e.required), count, e.key.account, Some(e.key))
  }

  function Outcome(row: Option<Auth>, e: Evaluation): Decision {
    if row.Some? && row.value.lastMessage == Some(e.key) then Duplicate
    else if row.Some? && row.value.authorized then AlreadyAuthorized
    else if Step(row, e).authorized then AuthorizedNow
    else Blocked
  }

  function RowOf(auths: map<string, Auth>, peer: string): Option<Auth> {
    if peer in auths then Some(auths[peer]) else None
  }

  /** `evaluateAuthorization`; its only caller has a `received` message. */
  function Evaluate(db: Db, e: Evaluation, peer: string, now: nat): Txn<Decision>
    requires e.key in db.messages ==> db.messages[e.key].status == Received
  {
    if e.key !in db.messages then Rollback(UnknownMessage)
    else if db.messages[e.key].conv != Conversation(WechatKf, e.key.account, peer) then Rollback(PairMismatch)
    else
      var row, notice := RowOf(db.auths, peer), AttemptKey(e.key, 0);
      var outcome := Outcome(row, e);
      if outcome in {Duplicate, AlreadyAuthorized} then Commit(db, outcome)
      else
        var counted := db.(auths := db.auths[peer := Step(row, e)]);
        if outcome == Blocked then Commit(SetStatus(counted, e.key, Ignored, false, now), Blocked)
        else if notice in db.attempts && db.attempts[notice].origin != AuthorizationNotice
          then Rollback(InvariantConflict)
        else
          Commit(Welcome(counted, e.key, now), AuthorizedNow)
  }

  /** Reserve the confirmation unless its row exists, and make the message ready. */
  function Welcome(db: Db, key: MessageKey, now: nat): Db
    requires key in db.messages
  {
    var notice := AttemptKey(key, 0);
    db.(
      attempts := if notice in db.attempts then db.attempts
        else db.attempts[notice := KfAttempt(db.messages[key].conv, AuthorizationNotice, Pending, now)],
      messages := db.messages[key := db.messages[key].(status := Ready, updatedAt := now)])
  }

  // ---------------------------------------------------------------- the invariant

  lemma AuthsKeep(db: Db, auths: map<string, Auth>)
    requires Inv(db)
    ensures Inv(db.(auths := auths))
  {
    OtherTablesKeep(db, db.(auths := auths));
  }

  lemma NoticeKeeps(db: Db, key: MessageKey, now: nat)
    requires Inv(db) && key in db.messages && db.messages[key].conv.channel == WechatKf
    ensures Inv(db.(attempts := db.attempts[AttemptKey(key, 0) :=
      KfAttempt(db.messages[key].conv, AuthorizationNotice, Pending, now)]))
  {
    var k := AttemptKey(key, 0);
    if k in db.attempts { AttemptFacts(db, k); }
    KfAttemptKeeps(db, k, KfAttempt(db.messages[key].conv, AuthorizationNotice, Pending, now));
  }

  lemma SettleReceivedKeeps(db: Db, key: MessageKey, m: Inbound)
    requires Inv(db) && key in db.messages && db.messages[key].status == Received
    requires m.conv == db.messages[key].conv && m.inboxSeq == db.messages[key].inboxSeq
    requires m.primary == db.messages[key].primary && m.status in {Ready, Ignored}
    ensures Inv(db.(messages := db.messages[key := m]))
  {
    assert FlatAt(db.messages, key);
    forall k | k in db.attempts && k.source == key ensures Owns(m.status, db.attempts[k]) { AttemptFacts(db, k); }
    SetOneKeeps(db, key, m);
  }

  lemma BlockedKeeps(db: Db, e: Evaluation, peer: string, now: nat)
    requires Inv(db) && e.key in db.messages && db.messages[e.key].status == Received
    ensures Inv(SetStatus(db.(auths := db.auths[peer := Step(RowOf(db.auths, peer), e)]), e.key, Ignored, false, now))
  {
    var counted := db.(auths := db.auths[peer := Step(RowOf(db.auths, peer), e)]);
    AuthsKeep(db, counted.auths);
    SettleReceivedKeeps(counted, e.key, counted.messages[e.key].(status := Ignored, payload := None, updatedAt := now));
  }

  lemma WelcomeKeeps(db: Db, key: MessageKey, now: nat)
    requires Inv(db) && key in db.messages && db.messages[key].status == Received
    requires db.messages[key].conv.channel == WechatKf
    ensures Inv(Welcome(db, key, now))
  {
    hide Inv;
    NoticeKeeps(db, key, now);
    var noted := db.(attempts := Welcome(db, key, now).attempts);
    assert AttemptKey(key, 0) in db.attempts ==> noted == db;
    SettleReceivedKeeps(noted, key, noted.messages[key].(status := Ready, updatedAt := now));
  }

  lemma EvaluateKeeps(db: Db, e: Evaluation, peer: string, now: nat)
    requires Inv(db) && (e.key in db.messages ==> db.messages[e.key].status == Received)
    ensures Inv(After(db, Evaluate(db, e, peer, now)))
  {
    var txn := Evaluate(db, e, peer, now);
    hide Inv, Step, Outcome, SetStatus, Welcome;
    if txn.Commit? && txn.value == Blocked {
      BlockedKeeps(db, e, peer, now);
    } else if txn.Commit? && txn.value == AuthorizedNow {
      AuthsKeep(db, db.auths[peer := Step(RowOf(db.auths, peer), e)]);
      WelcomeKeeps(db.(auths := db.auths[peer := Step(RowOf(db.auths, peer), e)]), e.key, now);
    }
  }

  // ---------------------------------------------------------------- the row refines the history

  /** The row of a customer after a history of evaluations. */
  function RowAfter(history: seq<Evaluation>): Option<Auth> {
    if history == [] then None
    else Some(Step(RowAfter(history[..|history| - 1]), history[|history| - 1]))
  }

  /** The history without evaluations that repeat the message just evaluated. */
  function Distinct(history: seq<Evaluation>): seq<Evaluation> {
    if history == [] then []
    else
      var init, e := Distinct(history[..|history| - 1]), history[|history| - 1];
      if init != [] && init[|init| - 1].key == e.key then init else init + [e]
  }

  /** The last `n` messages are triggers from one account. */
  ghost predicate Streak(history: seq<Evaluation>, n: nat) {
    n <= |history| && forall i :: |history| - n <= i < |history| ==>
      history[i].trigger && history[i].key.account == history[|history| - 1].key.account
  }

  ghost predicate LongestStreak(history: seq<Evaluation>, n: nat) {
    Streak(history, n) && forall m: nat :: Streak(history, m) ==> m <= n
  }

  function UpTo(history: seq<Evaluation>, i: nat): seq<Evaluation>
    requires i < |history|
  {
    history[..i + 1]
  }

  /** The message at `i` completes a streak as long as required: three by default, and at least one. */
  ghost predicate Completes(history: seq<Evaluation>, i: nat)
    requires i < |history|
  {
    var required := history[i].required;
    Streak(UpTo(history, i), if required == 0 then 3 else if required < 1 then 1 else required)
  }

  /** What the row of a customer has to say about the history. */
  ghost predicate Refines(row: Option<Auth>, history: seq<Evaluation>) {
    && (row.None? <==> history == [])
    && (row.Some? ==>
          if row.value.authorized then
            exists i: nat ::
              && i < |history| && Completes(history, i)
              && (forall j: nat :: j < i ==> !Completes(history, j))
              && LongestStreak(UpTo(history, i), row.value.count)
          else
            && (forall j: nat :: j < |history| ==> !Completes(history, j))
            && LongestStreak(history, row.value.count)
            && row.value.lastAccount == history[|history| - 1].key.account
            && row.value.lastMessage == Some(history[|history| - 1].key))
  }

  lemma StreakSnoc(init: seq<Evaluation>, e: Evaluation, n: nat)
    requires LongestStreak(init, n)
    ensures LongestStreak(init + [e],
      if !e.trigger then 0 else if init != [] && init[|init| - 1].key.account == e.key.account then n + 1 else 1)
  {
    var history := init + [e];
    var longest :=
      if !e.trigger then 0
      else if init != [] && init[|init| - 1].key.account == e.key.account then n + 1
      else 1;
    assert Streak(history, longest);
    forall m: nat | Streak(history, m) ensures m <= longest {
      if m > 0 {
        assert history[|init|] == e;
        if m > 1 {
          assert history[|init| - 1] == init[|init| - 1];
          forall i | |init| - (m - 1) <= i < |init|
            ensures init[i].trigger && init[i].key.account == init[|init| - 1].key.account
          {
            assert history[i] == init[i];
          }
          assert Streak(init, m - 1);
        }
      }
    }
  }

  lemma CompletesEarlier(init: seq<Evaluation>, e: Evaluation)
    ensures forall j: nat :: j < |init| ==> (Completes(init + [e], j) <==> Completes(init, j))
    ensures forall j: nat :: j < |init| ==> UpTo(init + [e], j) == UpTo(init, j)
  {
    forall j: nat | j < |init| ensures UpTo(init + [e], j) == UpTo(init, j) {}
  }

  lemma ShorterStreak(history: seq<Evaluation>, n: nat, m: nat)
    requires Streak(history, n) && m <= n
    ensures Streak(history, m)
  {}

  /** One evaluation of a message other than the last keeps the refinement. */
  lemma StepRefines(row: Option<Auth>, init: seq<Evaluation>, e: Evaluation)
    requires Refines(row, init) && (init != [] ==> init[|init| - 1].key != e.key)
    ensures Refines(Some(Step(row, e)), init + [e])
  {
    var history := init + [e];
    CompletesEarlier(init, e);
    if row.Some? && row.value.authorized {
      var i: nat :| i < |init| && Completes(init, i) && (forall j: nat :: j < i ==> !Completes(init, j))
        && LongestStreak(UpTo(init, i), row.value.count);
      assert Completes(history, i) && LongestStreak(UpTo(history, i), row.value.count);
    } else {
      var count := if row.Some? then row.value.count else 0;
      assert LongestStreak(init, count);
      StreakSnoc(init, e, count);
      var next := Step(row, e);
      assert LongestStreak(history, next.count);
      assert UpTo(history, |init|) == history;
      if next.authorized {
        ShorterStreak(history, next.count, Threshold(e.required));
        assert Completes(history, |init|);
      }
    }
  }

  /** Evaluating the last message again changes nothing. */
  lemma RepeatRefines(row: Option<Auth>, history: seq<Evaluation>, e: Evaluation)
    requires Refines(row, history) && history != [] && history[|history| - 1].key == e.key
    ensures Step(row, e) == row.value
  {}

  /**
   A customer is authorized exactly when some message completed a streak as long as its threshold, and
   stays so; until then the counter is the length of the longest streak at the end of the history.
   */
  lemma {:induction false} AuthorizationRefines(history: seq<Evaluation>)
    ensures Refines(RowAfter(history), Distinct(history))
  {
    if history != [] {
      var init, e := history[..|history| - 1], history[|history| - 1];
      AuthorizationRefines(init);
      if Distinct(init) != [] && Distinct(init)[|Distinct(init)| - 1].key == e.key {
        RepeatRefines(RowAfter(init), Distinct(init), e);
      } else {
        StepRefines(RowAfter(init), Distinct(init), e);
      }
    }
  }

  /** Authorization is never lost, whatever is evaluated later. */
  lemma {:induction false} AuthorizationLasts(history: seq<Evaluation>, later: seq<Evaluation>)
    requires RowAfter(history).Some? && RowAfter(history).value.authorized
    ensures RowAfter(history + later) == RowAfter(history)
  {
    if later == [] {
      assert history + later == history;
    } else {
      var init := later[..|later| - 1];
      AuthorizationLasts(history, init);
      assert (history + later)[..|history + later| - 1] == history + init;
    }
  }
}
