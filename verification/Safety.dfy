/** What the invariant and the steps say about whole runs. */
module Safety {
  import opened Basics
  import opened Tables
  import opened PageOrder
  import opened Ledger
  import opened Inbox
  import opened PageCommit
  import opened Authorization
  import opened Events
  import opened Invariants
  import opened LedgerProofs
  import opened PageProofs
  import opened Steps
  import opened Runs

  // ---------------------------------------------------------------- runs

  lemma FinalSnoc(run: seq<Tick>, t: Tick)
    ensures Final(run + [t]) == Next(Final(run), t)
  {
    assert (run + [t])[..|run|] == run;
  }

  lemma LastTick(run: seq<Tick>)
    requires run != []
    ensures Inv(Final(run[..|run| - 1])) && Inv(Final(run))
    ensures Final(run) == Next(Final(run[..|run| - 1]), run[|run| - 1]) && StepOk(Final(run[..|run| - 1]), Final(run))
  {
    Always(run[..|run| - 1]);
    hide Inv, StepOk, Next;
    NextKeeps(Final(run[..|run| - 1]), run[|run| - 1]);
  }

  lemma StepGrows(db: Db, after: Db)
    requires StepOk(db, after)
    ensures db.nextWindow <= after.nextWindow && |db.inbox| <= |after.inbox|
  {
    hide AttemptsStep, AuthsStep, SentStep;
  }

  lemma StepMessage(db: Db, after: Db, k: MessageKey)
    requires StepOk(db, after) && k in after.messages
    ensures if k in db.messages then MessageStep(db.messages[k], after.messages[k])
      else after.messages[k].inboxSeq > |db.inbox|
  {
    hide AttemptsStep, WindowsStep, AuthsStep, SentStep;
  }

  lemma StepAttempt(db: Db, after: Db, k: AttemptKey)
    requires StepOk(db, after) && k in after.attempts
    ensures Permitted(db.messages, db.attempts, k, after.attempts[k])
    ensures k in db.attempts ==> AttemptStep(db.attempts[k], after.attempts[k])
  {
    hide MessagesStep, WindowsStep, AuthsStep, SentStep;
  }

  // ---------------------------------------------------------------- quota

  /** How many attempts of a window went on the wire during a run. */
  ghost function Sends(run: seq<Tick>, w: WindowId): nat {
    if run == [] then 0
    else
      var init := run[..|run| - 1];
      Sends(init, w) + |Entered(Final(init).attempts, Final(run).attempts, w)|
  }

  lemma {:induction false} SendsAreCounted(run: seq<Tick>, w: WindowId)
    ensures Final(run).sent[w] == Sends(run, w)
  {
    if run != [] {
      SendsAreCounted(run[..|run| - 1], w);
      LastTick(run);
      hide Inv, Next, Final;
    }
  }

  /**
   Conservation of quota. No window ever sends more than ten messages, and while its row exists its
   counters say so: `transmitted` is the number of its attempts that ever went on the wire, and the
   reservations cover its pending attempts.
   */
  lemma QuotaConserved(run: seq<Tick>, w: WindowId)
    ensures Sends(run, w) <= 10
    ensures w in Final(run).windows ==>
      var row := Final(run).windows[w];
      && row.transmitted == Sends(run, w)
      && |PendingOf(Final(run).attempts, w)| <= row.reserved
      && row.reserved + row.transmitted <= 10
      && (row.state != Open ==> row.reserved == 0 && PendingOf(Final(run).attempts, w) == {})
  {
    Always(run);
    SendsAreCounted(run, w);
    SentBound(Final(run));
    if w in Final(run).windows { WindowFacts(Final(run), w); }
    hide Inv, Final;
  }

  /** The exits that guard the counters are dead code in every reachable state. */
  lemma CounterGuardsAreDead(run: seq<Tick>, token: Token, key: AttemptKey, persist: bool, expired: bool, now: nat)
    ensures var db := Final(run);
      && PrepareReply(db, token, persist, now) != Rollback(CounterConflict)
      && StartReply(db, token, key, now) != Rollback(CounterConflict)
      && ReleasePending(db, key, expired, now).Commit?
      && RecoverPending(db, now).Commit?
  {
    Always(run);
    hide Inv, Final;
    NoCounterConflict(Final(run), token, key, persist, expired, now);
  }

  // ---------------------------------------------------------------- windows

  /** At most one open window per conversation, of the present generation, and the only one with a secret. */
  lemma WindowsSound(run: seq<Tick>, v: WindowId, w: WindowId)
    requires v in Final(run).windows && w in Final(run).windows
    ensures var db := Final(run);
      && (db.windows[v].source == db.windows[w].source ==> v == w)
      && (db.windows[v].state == Open && db.windows[w].state == Open && db.windows[v].conv == db.windows[w].conv ==>
            v == w)
      && (db.windows[v].state == Open ==>
            db.windows[v].conv.account in db.accounts
            && db.accounts[db.windows[v].conv.account].generation == db.windows[v].generation)
      && (v in db.secrets ==> db.windows[v].state == Open)
  {
    Always(run);
    hide Final;
    assert UniqueWindows(Final(run).windows) && SecretsOk(Final(run).windows, Final(run).secrets);
    hide Inv;
    WindowFacts(Final(run), v);
  }

  lemma StepWindow(db: Db, after: Db, w: WindowId)
    requires StepOk(db, after) && w in after.windows
    ensures if w in db.windows then WindowStep(db.windows[w], after.windows[w]) else w >= db.nextWindow
  {
    hide MessagesStep, AttemptsStep, AuthsStep, SentStep;
  }

  lemma WindowStepTwice(a: Window, b: Window, c: Window)
    requires WindowStep(a, b) && WindowStep(b, c)
    ensures WindowStep(a, c)
  {}

  /** Retired windows stay retired, and counts never shrink. */
  lemma {:induction false} WindowsOnlyRetire(run: seq<Tick>, more: seq<Tick>, w: WindowId)
    requires w in Final(run).windows && w in Final(run + more).windows
    ensures WindowStep(Final(run).windows[w], Final(run + more).windows[w])
  {
    hide Inv, Next, Final, StepOk;
    if more == [] {
      assert run + more == run;
    } else {
      var init := more[..|more| - 1];
      RunInit(run, more);
      LastTick(run + more);
      Always(run);
      WindowBound(Final(run));
      NextWindowGrows(run, init);
      StepWindow(Final(run + init), Final(run + more), w);
      WindowsOnlyRetire(run, init, w);
      WindowStepTwice(Final(run).windows[w], Final(run + init).windows[w], Final(run + more).windows[w]);
    }
  }

  lemma {:induction false} NextWindowGrows(run: seq<Tick>, more: seq<Tick>)
    ensures Final(run).nextWindow <= Final(run + more).nextWindow
    ensures |Final(run).inbox| <= |Final(run + more).inbox|
  {
    hide Inv, Next, Final, StepOk;
    if more == [] {
      assert run + more == run;
    } else {
      var init := more[..|more| - 1];
      RunInit(run, more);
      LastTick(run + more);
      NextWindowGrows(run, init);
      StepGrows(Final(run + init), Final(run + more));
    }
  }

  // ---------------------------------------------------------------- messages

  /** The statuses that are never left. */
  predicate Terminal(status: InboundStatus) { status in {Completed, Ignored, Absorbed, Suppressed} }

  lemma TerminalStep(db: Db, after: Db, key: MessageKey)
    requires StepOk(db, after) && key in after.messages && after.messages[key].inboxSeq <= |db.inbox|
    ensures key in db.messages && db.messages[key].inboxSeq == after.messages[key].inboxSeq
    ensures Terminal(db.messages[key].status) ==> after.messages[key].status == db.messages[key].status
  {
    StepMessage(db, after, key);
    hide StepOk;
  }

  lemma RunInit(run: seq<Tick>, more: seq<Tick>)
    requires more != []
    ensures |run + more| > 0 && (run + more)[..|run + more| - 1] == run + more[..|more| - 1]
  {}

  /** Terminal statuses are never left: a row that exists later still has the status. */
  lemma {:induction false} TerminalIsFinal(run: seq<Tick>, more: seq<Tick>, key: MessageKey)
    requires key in Final(run).messages && Terminal(Final(run).messages[key].status)
    requires key in Final(run + more).messages
    requires Final(run + more).messages[key].inboxSeq == Final(run).messages[key].inboxSeq
    ensures Final(run + more).messages[key].status == Final(run).messages[key].status
  {
    hide Inv, Next, Final, StepOk, Terminal;
    if more == [] {
      assert run + more == run;
    } else {
      var init := more[..|more| - 1];
      RunInit(run, more);
      LastTick(run + more);
      Always(run);
      MessageFacts(Final(run), key);
      NextWindowGrows(run, init);
      TerminalStep(Final(run + init), Final(run + more), key);
      TerminalIsFinal(run, init, key);
    }
  }

  /** Groups are one level deep in every reachable state. */
  lemma GroupsStayFlat(run: seq<Tick>, key: MessageKey)
    requires key in Final(run).messages
    ensures var messages := Final(run).messages;
      var m := messages[key];
      && (m.status in {Received, Processing, Preparing, Failed, Ready} ==> m.primary.None?)
      && (m.status in {Steering, Steered} ==>
            && m.primary.Some? && m.primary.value in messages
            && messages[m.primary.value].conv == m.conv
            && messages[m.primary.value].status !in {Received, Steering, Steered})
  {
    Always(run);
    MessageFacts(Final(run), key);
    hide Inv, Final;
  }

  // ---------------------------------------------------------------- attempts

  /** Which messages own attempts of the Agent's tools. */
  lemma ToolAttemptsBelong(run: seq<Tick>, k: AttemptKey)
    requires k in Final(run).attempts && Final(run).attempts[k].origin == McpTool
    ensures k.source in Final(run).messages
    ensures var status := Final(run).messages[k.source].status;
      && status !in {Received, Steering, Steered, Absorbed, Ignored, Ready}
      && (Terminal(status) ==> Final(run).attempts[k].status != Pending)
  {
    Always(run);
    AttemptFacts(Final(run), k);
    hide Inv, Final;
  }

  /**
   Only tool calls are settled with their message: a completed message may still owe its queue notice,
   so the clause about pending attempts in `ToolAttemptsBelong` does not extend to notices.
   */
  lemma CompletedMayOweNotice() returns (run: seq<Tick>, k: AttemptKey)
    ensures k in Final(run).attempts && Final(run).attempts[k].status == Pending
    ensures k.source in Final(run).messages && Final(run).messages[k.source].status == Completed
  {
    var key, conv := MessageKey(WechatKf, "a", "m"), Conversation(WechatKf, "a", "p");
    var arrivals := [Arrival(key, conv, true, false, Payload("", "", 0))];
    k := AttemptKey(key, 0);
    var received := [Tick(Ingest("a", "", "c", arrivals), 0)];
    var noticed := received + [Tick(Notice(key), 0)];
    run := noticed + [Tick(Complete(key), 0)];
    FinalSnoc([], Tick(Ingest("a", "", "c", arrivals), 0));
    FinalSnoc(received, Tick(Notice(key), 0));
    FinalSnoc(noticed, Tick(Complete(key), 0));
    assert [] + [Tick(Ingest("a", "", "c", arrivals), 0)] == received;
    assert Final([]) == EMPTY_DB;
    hide Final, Next;
    FirstArrival(arrivals[0]);
    FirstNotice(Final(received), key);
    NowCompleted(Final(noticed), key);
  }

  lemma FirstNotice(db: Db, key: MessageKey)
    requires db.attempts == map[] && key in db.messages && db.messages[key].status == Received
    requires !db.messages[key].deferred && db.messages[key].conv.channel == WechatKf
    ensures Next(db, Tick(Notice(key), 0)) == db.(attempts :=
      map[AttemptKey(key, 0) := KfAttempt(db.messages[key].conv, QueueNotice, Pending, 0)])
  {
    NoAttempts(key, MAX_ATTEMPTS);
    hide NextIndex;
  }

  lemma NowCompleted(db: Db, key: MessageKey)
    requires key in db.messages && db.messages[key].status == Received
    ensures Next(db, Tick(Complete(key), 0)) == SetStatus(db, key, Completed, false, 0)
  {}

  lemma FirstArrival(a: Arrival)
    requires WellFormed("a", a)
    ensures Next(EMPTY_DB, Tick(Ingest("a", "", "c", [a]), 0))
      == EMPTY_DB.(inbox := [a.key], messages := map[a.key := ReceivedRow(1, a, 0)], cursors := map["a" := "c"])
  {
    assert [a][..0] == [];
    assert InsertAll(EMPTY_DB, [], 0) == EMPTY_DB;
    assert InsertAll(EMPTY_DB, [a], 0) == InsertOne(EMPTY_DB, a, 0);
  }

  lemma {:induction false} NoAttempts(key: MessageKey, bound: nat)
    ensures NextIndex(map[], key, bound) == 0
  {
    if bound > 0 { NoAttempts(key, bound - 1); }
  }

  /** Once a message is settled no tool call of it goes on the wire any more. */
  lemma NoLateSend(run: seq<Tick>, more: seq<Tick>, t: Tick, k: AttemptKey)
    requires k.source in Final(run).messages && Terminal(Final(run).messages[k.source].status)
    requires k.source in Final(run + more).messages
    requires Final(run + more).messages[k.source].inboxSeq == Final(run).messages[k.source].inboxSeq
    requires var after := Final(run + more + [t]);
      k in after.attempts && after.attempts[k].status == Sending && after.attempts[k].origin == McpTool
    ensures k in Final(run + more).attempts && Final(run + more).attempts[k].status == Sending
  {
    TerminalIsFinal(run, more, k.source);
    FinalSnoc(run + more, t);
    Always(run + more);
    NextKeeps(Final(run + more), t);
    hide Inv, Next, Final, StepOk;
    StepAttempt(Final(run + more), Final(run + more + [t]), k);
  }

  /** One iLink attempt of a conversation is on the wire at most. */
  lemma SendsSerialized(run: seq<Tick>, j: AttemptKey, k: AttemptKey)
    requires j in Final(run).attempts && k in Final(run).attempts
    requires Final(run).attempts[j].status == Sending && Final(run).attempts[k].status == Sending
    requires Final(run).attempts[j].conv == Final(run).attempts[k].conv
    requires Final(run).attempts[j].conv.channel == WeixinIlink
    ensures j == k
  {
    Always(run);
    hide Final;
    var db := Final(run);
    assert OneSending(db.attempts);
    hide Inv;
    assert IlinkSending(db.attempts, j, db.attempts[j].conv) && IlinkSending(db.attempts, k, db.attempts[j].conv);
  }

  /** Attempts that held quota of one window have distinct indices below the next one. */
  lemma IndicesDistinct(run: seq<Tick>, j: AttemptKey, k: AttemptKey, w: WindowId)
    requires j in Final(run).attempts && k in Final(run).attempts && j != k && w in Final(run).windows
    requires Final(run).attempts[j].window == Some(w) && Final(run).attempts[j].issued
    requires Final(run).attempts[j].windowIndex.Some?
    requires Final(run).attempts[k].window == Some(w) && Final(run).attempts[k].issued
    requires Final(run).attempts[k].windowIndex.Some?
    ensures Final(run).attempts[j].windowIndex != Final(run).attempts[k].windowIndex
    ensures Final(run).attempts[j].windowIndex.value < Final(run).windows[w].next
  {
    Always(run);
    hide Final;
    var db := Final(run);
    assert IndicesOk(db.windows, db.attempts);
    hide Inv;
    assert Invariants.Indexed(db.attempts, j, w) && Invariants.Indexed(db.attempts, k, w);
  }

  /** The row exists after every prefix of a continuation. */
  ghost predicate Survives(run: seq<Tick>, more: seq<Tick>, k: AttemptKey) {
    forall n :: 0 <= n <= |more| ==> k in Final(run + more[..n]).attempts
  }

  lemma SurvivesInit(run: seq<Tick>, more: seq<Tick>, k: AttemptKey)
    requires more != [] && Survives(run, more, k)
    ensures Survives(run, more[..|more| - 1], k) && k in Final(run + more).attempts
  {
    hide Final;
    var init := more[..|more| - 1];
    assert more[..|more|] == more;
    assert k in Final(run + more[..|more|]).attempts;
    forall n | 0 <= n <= |init| ensures k in Final(run + init[..n]).attempts { assert init[..n] == more[..n]; }
  }

  /** The outcome of an iLink attempt never changes while its row exists. */
  lemma {:induction false} OutcomeIsFinal(run: seq<Tick>, more: seq<Tick>, k: AttemptKey)
    requires Survives(run, more, k)
    requires k in Final(run).attempts && Final(run).attempts[k].status in {Accepted, FailedSend, Uncertain}
    requires Final(run).attempts[k].conv.channel == WeixinIlink
    ensures k in Final(run + more).attempts
    ensures Final(run + more).attempts[k].status == Final(run).attempts[k].status
    ensures Final(run + more).attempts[k].conv == Final(run).attempts[k].conv
  {
    hide Inv, Next, Final, StepOk, Survives;
    if more == [] {
      assert run + more == run;
    } else {
      var init := more[..|more| - 1];
      SurvivesInit(run, more, k);
      OutcomeIsFinal(run, init, k);
      RunInit(run, more);
      LastTick(run + more);
      StepAttempt(Final(run + init), Final(run + more), k);
    }
  }

  // ---------------------------------------------------------------- the budget of a turn

  lemma {:induction false} FewIndices(keys: set<AttemptKey>, source: MessageKey, bound: nat)
    requires forall k :: k in keys ==> k.source == source && k.index < bound
    ensures |keys| <= bound
  {
    if bound == 0 {
      assert keys == {};
    } else {
      var last := AttemptKey(source, bound - 1);
      FewIndices(keys - {last}, source, bound - 1);
    }
  }

  lemma InvWithinBudget(db: Db, key: MessageKey)
    requires Inv(db)
    ensures WithinBudget(db, key)
  {
    hide Inv;
    forall k | k in ToolAttempts(db.attempts, key) && Charged(db.attempts[k])
      ensures |ChargedIn(db.attempts, key, db.attempts[k].window)| <=
        if db.attempts[k].window.Some? then MAX_SENDS else 5
    {
      AttemptFacts(db, k);
      var chosen := ChargedIn(db.attempts, key, db.attempts[k].window);
      if db.attempts[k].window.Some? {
        var w := db.attempts[k].window.value;
        WindowFacts(db, w);
        SubsetSize(chosen, ChargedOf(db.attempts, w));
      } else {
        forall j | j in chosen ensures j.source == key && j.index < 5 { AttemptFacts(db, j); }
        FewIndices(chosen, key, 5);
      }
    }
  }

  /** The budget check of `finalizeAgentExecution` never fails: the reservations already enforce it. */
  lemma BudgetIsEnforced(run: seq<Tick>, key: MessageKey, steered: set<MessageKey>, reported: seq<AttemptKey>, now: nat)
    ensures WithinBudget(Final(run), key)
    ensures Finalize(Final(run), key, steered, reported, now) != Rollback(BudgetExceeded)
  {
    Always(run);
    InvWithinBudget(Final(run), key);
    hide Inv, Final, WithinBudget, ToolAttempts;
  }

  // ---------------------------------------------------------------- authorization

  /** The evaluations of a customer's messages that committed. */
  ghost function Evaluations(run: seq<Tick>, peer: string): seq<Evaluation> {
    if run == [] then []
    else
      var init, t := run[..|run| - 1], run[|run| - 1];
      if t.event.Evaluated? && t.event.peer == peer && Enabled(Final(init), t.event, t.now)
        && Evaluate(Final(init), t.event.evaluation, peer, t.now).Commit?
      then Evaluations(init, peer) + [t.event.evaluation] else Evaluations(init, peer)
  }

  lemma EvaluateAuths(db: Db, e: Evaluation, peer: string, now: nat)
    requires e.key in db.messages ==> db.messages[e.key].status == Received
    ensures var txn := Evaluate(db, e, peer, now);
      txn.Commit? ==> txn.db.auths == (if Outcome(RowOf(db.auths, peer), e) in {Blocked, AuthorizedNow}
                                       then db.auths[peer := Step(RowOf(db.auths, peer), e)] else db.auths)
  {
    hide Step, Outcome;
  }

  lemma StepOutcome(row: Option<Auth>, e: Evaluation)
    ensures Outcome(row, e) !in {Blocked, AuthorizedNow} ==> row.Some? && Step(row, e) == row.value
  {}

  lemma EvaluateRow(db: Db, e: Evaluation, evaluated: string, peer: string, now: nat)
    requires e.key in db.messages ==> db.messages[e.key].status == Received
    ensures var txn := Evaluate(db, e, evaluated, now);
      RowOf(After(db, txn).auths, peer)
        == if txn.Commit? && peer == evaluated then Some(Step(RowOf(db.auths, peer), e)) else RowOf(db.auths, peer)
  {
    EvaluateAuths(db, e, evaluated, now);
    StepOutcome(RowOf(db.auths, evaluated), e);
    hide Evaluate, Step, Outcome;
  }

  lemma RowSnoc(history: seq<Evaluation>, e: Evaluation)
    ensures RowAfter(history + [e]) == Some(Step(RowAfter(history), e))
  {
    assert (history + [e])[..|history|] == history;
  }

  lemma TickRow(db: Db, t: Tick, peer: string)
    requires Inv(db)
    ensures RowOf(Next(db, t).auths, peer)
      == if t.event.Evaluated? && t.event.peer == peer && Enabled(db, t.event, t.now)
            && Evaluate(db, t.event.evaluation, peer, t.now).Commit?
         then Some(Step(RowOf(db.auths, peer), t.event.evaluation)) else RowOf(db.auths, peer)
  {
    hide Inv, Evaluate, StepOk, QuietStep, StillStep;
    if Enabled(db, t.event, t.now) {
      if t.event.Evaluated? {
        EvaluateRow(db, t.event.evaluation, t.event.peer, peer, t.now);
      } else {
        ApplySteps(db, t.event, t.now);
        hide Apply;
      }
    }
  }

  lemma {:induction false} RowIsHistory(run: seq<Tick>, peer: string)
    ensures RowOf(Final(run).auths, peer) == RowAfter(Evaluations(run, peer))
  {
    hide Inv, Evaluate, Next, RowAfter, Enabled, RowOf;
    if run == [] {
      NoRow(peer);
    } else {
      var init, t := run[..|run| - 1], run[|run| - 1];
      RowIsHistory(init, peer);
      Always(init);
      TickRow(Final(init), t, peer);
      if t.event.Evaluated? { RowSnoc(Evaluations(init, peer), t.event.evaluation); }
    }
  }

  lemma NoRow(peer: string)
    ensures RowOf(EMPTY_DB.auths, peer) == None && RowAfter([]) == None
  {}

  /**
   In every run the row of a customer is the verdict on the whole history of evaluated messages: the
   customer is authorized exactly when a streak of triggers has reached its threshold.
   */
  lemma AuthorizationIsHistory(run: seq<Tick>, peer: string)
    ensures Refines(RowOf(Final(run).auths, peer), Distinct(Evaluations(run, peer)))
  {
    RowIsHistory(run, peer);
    AuthorizationRefines(Evaluations(run, peer));
    hide Refines, Distinct, Final;
  }
}
