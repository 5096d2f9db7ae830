/**
 Approval requests of the Codex server: a pending approval races against its handler, its timeout,
 patch updates, resolution, the end of its turn or thread, and the reuse of its id.
 */
module Approvals {
  import opened Basics

  const MAX_APPROVALS: nat := 32

  /** What an approval is about. */
  datatype Target = Target(thread: string, turn: string, item: string)

  /** A pending approval; `serial` stands for its abort controller: the step that registered it. */
  datatype Approval = Approval(id: string, target: Target, serial: nat)

  datatype Decision = Accept | Decline | Cancel

  /** What the handler came to: a bare word, a ruling with a freshness check, or an exception. */
  datatype Verdict = Word(decline: bool) | Ruling(allowed: bool, decision: Decision) | Thrown

  /** A message written to the server. */
  datatype Reply = Decided(id: string, decision: Decision) | Refused(id: string)

  /**
   The connection. `clock` counts steps. `withdrawn` is a history variable: the ids of registrations
   that ended without a reply.
   */
  datatype Conn = Conn(approvals: seq<Approval>, closed: bool, clock: nat, replies: seq<Reply>, withdrawn: seq<string>)

  const IDLE := Conn([], false, 0, [], [])

  datatype Step =
    | Request(id: string, target: Option<Target>)         // an approval request; None: its parameters are invalid
    | Unsupported(id: string)                             // any other request, or no handler is set
    | Decide(id: string, serial: nat, verdict: Verdict)   // the handler of a registration settles
    | Timeout(id: string, serial: nat)                    // the timer of a registration fires
    | Resolved(id: string, thread: string)                // `serverRequest/resolved`
    | ThreadGone(thread: string)                          // `thread/archived`, `thread/closed`, `thread/deleted`
    | PatchUpdated(patched: Target)                       // `item/fileChange/patchUpdated`
    | TurnCompleted(turn: string)                         // `turn/completed`
    | Close                                               // shutdown

  // ---------------------------------------------------------------- the specification

  /** The approvals that a predicate does not select. */
  function Rest(approvals: seq<Approval>, chosen: Approval -> bool): seq<Approval> {
    if approvals == [] then []
    else (if chosen(approvals[0]) then [] else [approvals[0]]) + Rest(approvals[1..], chosen)
  }

  /** The ids of those that it selects, in the order of registration. */
  function Ids(approvals: seq<Approval>, chosen: Approval -> bool): seq<string> {
    if approvals == [] then []
    else (if chosen(approvals[0]) then [approvals[0].id] else []) + Ids(approvals[1..], chosen)
  }

  function Cancels(ids: seq<string>): seq<Reply> {
    if ids == [] then [] else [Decided(ids[0], Cancel)] + Cancels(ids[1..])
  }

  /** `#clearApprovals`: the selected approvals end without a reply. */
  function Clear(c: Conn, chosen: Approval -> bool): Conn {
    c.(approvals := Rest(c.approvals, chosen), withdrawn := c.withdrawn + Ids(c.approvals, chosen))
  }

  function HasId(id: string): Approval -> bool { (a: Approval) => a.id == id }

  function IsRegistration(id: string, serial: nat)
    : Approval -> bool { (a: Approval) => a.id == id && a.serial == serial }

  predicate Pending(approvals: seq<Approval>, chosen: Approval -> bool) {
    exists a :: a in approvals && chosen(a)
  }

  /** A reply to the registration `id`, `serial`, if it is still pending. */
  function Finish(c: Conn, id: string, serial: nat, decision: Decision): Conn {
    if c.closed || !Pending(c.approvals, IsRegistration(id, serial)) then c
    else c.(approvals := Rest(c.approvals, HasId(id)), replies := c.replies + [Decided(id, decision)])
  }

  /** Only a ruling that is still allowed grants permission. */
  function DecisionOf(v: Verdict): Decision {
    match v
    case Word(decline) => if decline then Decline else Cancel
    case Ruling(allowed, decision) => if allowed then decision else Cancel
    case Thrown => Cancel
  }

  function Handle(c: Conn, step: Step): Conn {
    match step
    case Request(id, target) =>
      if target.None? || Pending(c.approvals, HasId(id)) || |c.approvals| >= MAX_APPROVALS then
        var cleared := Clear(c, HasId(id));
        cleared.(replies := cleared.replies + [Refused(id)])
      else c.(approvals := c.approvals + [Approval(id, target.value, c.clock)])
    case Unsupported(id) => c.(replies := c.replies + [Refused(id)])
    case Decide(id, serial, verdict) => Finish(c, id, serial, DecisionOf(verdict))
    case Timeout(id, serial) => Finish(c, id, serial, Cancel)
    case Resolved(id, thread) => Clear(c, (a: Approval) => a.id == id && a.target.thread == thread)
    case ThreadGone(thread) => Clear(c, (a: Approval) => a.target.thread == thread)
    case PatchUpdated(target) =>
      if c.closed then c
      else
        var about := (a: Approval) => a.target == target;
        c.(approvals := Rest(c.approvals, about), replies := c.replies + Cancels(Ids(c.approvals, about)))
    case TurnCompleted(turn) => Clear(c, (a: Approval) => a.target.turn == turn)
    case Close => if c.closed then c else Clear(c.(closed := true), (a: Approval) => true)
  }

  function Tick(c: Conn, step: Step): Conn { Handle(c, step).(clock := c.clock + 1) }

  function Run(steps: seq<Step>): Conn {
    if steps == [] then IDLE else Tick(Run(steps[..|steps| - 1]), steps[|steps| - 1])
  }

  // ---------------------------------------------------------------- the invariant

  ghost predicate DistinctIds(approvals: seq<Approval>) {
    forall i, j :: 0 <= i < j < |approvals| ==> approvals[i].id != approvals[j].id
  }

  ghost predicate Sound(c: Conn) {
    DistinctIds(c.approvals) && |c.approvals| <= MAX_APPROVALS && forall a :: a in c.approvals ==> a.serial < c.clock
  }

  lemma {:induction false} RestFacts(approvals: seq<Approval>, chosen: Approval -> bool)
    ensures forall a :: a in Rest(approvals, chosen) <==> a in approvals && !chosen(a)
    ensures |Rest(approvals, chosen)| <= |approvals|
    ensures DistinctIds(approvals) ==> DistinctIds(Rest(approvals, chosen))
  {
    if approvals != [] {
      RestFacts(approvals[1..], chosen);
      assert approvals == [approvals[0]] + approvals[1..];
      if DistinctIds(approvals) { TailDistinct(approvals); }
    }
  }

  lemma TailDistinct(approvals: seq<Approval>)
    requires approvals != [] && DistinctIds(approvals)
    ensures DistinctIds(approvals[1..]) && forall a :: a in approvals[1..] ==> a.id != approvals[0].id
  {
    assert forall i :: 0 <= i < |approvals[1..]| ==> approvals[1..][i] == approvals[i + 1];
  }

  /** Ids are unique among pending approvals. */
  lemma SameId(approvals: seq<Approval>, a: Approval, b: Approval)
    requires DistinctIds(approvals) && a in approvals && b in approvals && a.id == b.id
    ensures a == b
  {}

  lemma FinishKeeps(c: Conn, id: string, serial: nat, decision: Decision)
    requires Sound(c)
    ensures Sound(Finish(c, id, serial, decision).(clock := c.clock + 1))
  {
    RestFacts(c.approvals, HasId(id));
  }

  lemma ClearKeeps(c: Conn, chosen: Approval -> bool)
    requires Sound(c)
    ensures Sound(Clear(c, chosen).(clock := c.clock + 1))
  {
    RestFacts(c.approvals, chosen);
  }

  lemma RegisterKeeps(c: Conn, id: string, target: Target)
    requires Sound(c) && !Pending(c.approvals, HasId(id)) && |c.approvals| < MAX_APPROVALS
    ensures Sound(c.(approvals := c.approvals + [Approval(id, target, c.clock)], clock := c.clock + 1))
  {
    forall a | a in c.approvals ensures a.id != id { assert !HasId(id)(a); }
  }

  lemma TickKeeps(c: Conn, step: Step)
    requires Sound(c)
    ensures Sound(Tick(c, step)) && Tick(c, step).clock == c.clock + 1
  {
    match step
    case Request(id, target) =>
      if target.None? || Pending(c.approvals, HasId(id)) || |c.approvals| >= MAX_APPROVALS {
        ClearKeeps(c, HasId(id));
      } else {
        RegisterKeeps(c, id, target.value);
      }
    case Unsupported(id) =>
    case Decide(id, serial, verdict) => FinishKeeps(c, id, serial, DecisionOf(verdict));
    case Timeout(id, serial) => FinishKeeps(c, id, serial, Cancel);
    case Resolved(id, thread) => ClearKeeps(c, (a: Approval) => a.id == id && a.target.thread == thread);
    case ThreadGone(thread) => ClearKeeps(c, (a: Approval) => a.target.thread == thread);
    case PatchUpdated(target) => RestFacts(c.approvals, (a: Approval) => a.target == target);
    case TurnCompleted(turn) => ClearKeeps(c, (a: Approval) => a.target.turn == turn);
    case Close => ClearKeeps(c.(closed := true), (a: Approval) => true);
  }

  lemma {:induction false} RunSound(steps: seq<Step>)
    ensures Sound(Run(steps)) && Run(steps).clock == |steps|
  {
    if steps != [] {
      RunSound(steps[..|steps| - 1]);
      TickKeeps(Run(steps[..|steps| - 1]), steps[|steps| - 1]);
    }
  }

  // ---------------------------------------------------------------- one reply per request

  /** Requests with an id, and what became of them. */
  function Asked(steps: seq<Step>, id: string): nat {
    if steps == [] then 0
    else
      var last := steps[|steps| - 1];
      Asked(steps[..|steps| - 1], id) + (if (last.Request? || last.Unsupported?) && last.id == id then 1 else 0)
  }

  function Count(ids: seq<string>, id: string): nat {
    if ids == [] then 0 else (if ids[0] == id then 1 else 0) + Count(ids[1..], id)
  }

  function Written(replies: seq<Reply>, id: string): nat {
    if replies == [] then 0 else (if replies[0].id == id then 1 else 0) + Written(replies[1..], id)
  }

  function Open(approvals: seq<Approval>, id: string): nat {
    if approvals == [] then 0 else (if approvals[0].id == id then 1 else 0) + Open(approvals[1..], id)
  }

  lemma {:induction false} CountAppend(x: seq<string>, y: seq<string>, id: string)
    ensures Count(x + y, id) == Count(x, id) + Count(y, id)
  {
    if x == [] { assert x + y == y; } else {
      assert (x + y)[1..] == x[1..] + y;
      CountAppend(x[1..], y, id);
    }
  }

  lemma {:induction false} WrittenAppend(x: seq<Reply>, y: seq<Reply>, id: string)
    ensures Written(x + y, id) == Written(x, id) + Written(y, id)
  {
    if x == [] { assert x + y == y; } else {
      assert (x + y)[1..] == x[1..] + y;
      WrittenAppend(x[1..], y, id);
    }
  }

  lemma {:induction false} OpenAppend(x: seq<Approval>, y: seq<Approval>, id: string)
    ensures Open(x + y, id) == Open(x, id) + Open(y, id)
  {
    if x == [] { assert x + y == y; } else {
      assert (x + y)[1..] == x[1..] + y;
      OpenAppend(x[1..], y, id);
    }
  }

  /** Clearing moves approvals from the pending to the ended ones. */
  lemma {:induction false} RestCounts(approvals: seq<Approval>, chosen: Approval -> bool, id: string)
    ensures Open(approvals, id) == Open(Rest(approvals, chosen), id) + Count(Ids(approvals, chosen), id)
  {
    if approvals != [] {
      RestCounts(approvals[1..], chosen, id);
      OpenAppend(if chosen(approvals[0]) then [] else [approvals[0]], Rest(approvals[1..], chosen), id);
      CountAppend(if chosen(approvals[0]) then [approvals[0].id] else [], Ids(approvals[1..], chosen), id);
    }
  }

  lemma {:induction false} CancelsCount(ids: seq<string>, id: string)
    ensures Written(Cancels(ids), id) == Count(ids, id)
  {
    if ids != [] {
      CancelsCount(ids[1..], id);
      WrittenAppend([Decided(ids[0], Cancel)], Cancels(ids[1..]), id);
    }
  }

  lemma {:induction false} OneOpen(approvals: seq<Approval>, id: string)
    requires DistinctIds(approvals)
    ensures Open(approvals, id) == (if Pending(approvals, HasId(id)) then 1 else 0)
  {
    if approvals == [] {
      assert !Pending(approvals, HasId(id));
    } else {
      var first := approvals[0];
      TailDistinct(approvals);
      OneOpen(approvals[1..], id);
      assert approvals == [first] + approvals[1..];
      if first.id == id {
        assert first in approvals && HasId(id)(first);
        forall a | a in approvals[1..] ensures !HasId(id)(a) {}
        assert !Pending(approvals[1..], HasId(id));
      } else if Pending(approvals[1..], HasId(id)) {
        var a :| a in approvals[1..] && HasId(id)(a);
        assert a in approvals;
      }
    }
  }

  /** Every request with the id was answered, withdrawn, or is pending. */
  ghost predicate Balanced(c: Conn, asked: nat, id: string) {
    asked == Written(c.replies, id) + Count(c.withdrawn, id) + Open(c.approvals, id)
  }

  lemma ClearBalances(c: Conn, chosen: Approval -> bool, asked: nat, id: string)
    requires Balanced(c, asked, id)
    ensures Balanced(Clear(c, chosen), asked, id)
  {
    RestCounts(c.approvals, chosen, id);
    CountAppend(c.withdrawn, Ids(c.approvals, chosen), id);
  }

  lemma RefuseBalances(c: Conn, refused: string, asked: nat, id: string)
    requires Balanced(c, asked, id)
    ensures Balanced(c.(replies := c.replies + [Refused(refused)]), asked + (if refused == id then 1 else 0), id)
  {
    WrittenAppend(c.replies, [Refused(refused)], id);
  }

  lemma FinishBalances(c: Conn, finished: string, serial: nat, decision: Decision, asked: nat, id: string)
    requires Sound(c) && Balanced(c, asked, id)
    ensures Balanced(Finish(c, finished, serial, decision), asked, id)
  {
    if !c.closed && Pending(c.approvals, IsRegistration(finished, serial)) {
      var a :| a in c.approvals && IsRegistration(finished, serial)(a);
      assert HasId(finished)(a);
      RestFacts(c.approvals, HasId(finished));
      OneOpen(c.approvals, id);
      OneOpen(Rest(c.approvals, HasId(finished)), id);
      WrittenAppend(c.replies, [Decided(finished, decision)], id);
      if id == finished {
        assert Pending(c.approvals, HasId(id)) && !Pending(Rest(c.approvals, HasId(finished)), HasId(id));
      } else if Pending(c.approvals, HasId(id)) {
        var b :| b in c.approvals && HasId(id)(b);
        assert b in Rest(c.approvals, HasId(finished));
      }
    }
  }

  lemma HandleBalances(c: Conn, step: Step, asked: nat, id: string)
    requires Sound(c) && Balanced(c, asked, id)
    ensures Balanced(Handle(c, step),
      asked + (if (step.Request? || step.Unsupported?) && step.id == id then 1 else 0), id)
  {
    match step
    case Request(other, target) =>
      if target.None? || Pending(c.approvals, HasId(other)) || |c.approvals| >= MAX_APPROVALS {
        ClearBalances(c, HasId(other), asked, id);
        RefuseBalances(Clear(c, HasId(other)), other, asked, id);
      } else {
        OpenAppend(c.approvals, [Approval(other, target.value, c.clock)], id);
      }
    case Unsupported(other) => RefuseBalances(c, other, asked, id);
    case Decide(other, serial, verdict) => FinishBalances(c, other, serial, DecisionOf(verdict), asked, id);
    case Timeout(other, serial) => FinishBalances(c, other, serial, Cancel, asked, id);
    case Resolved(other, thread) =>
      ClearBalances(c, (a: Approval) => a.id == other && a.target.thread == thread, asked, id);
    case ThreadGone(thread) => ClearBalances(c, (a: Approval) => a.target.thread == thread, asked, id);
    case PatchUpdated(target) =>
      var about := (a: Approval) => a.target == target;
      RestCounts(c.approvals, about, id);
      CancelsCount(Ids(c.approvals, about), id);
      WrittenAppend(c.replies, Cancels(Ids(c.approvals, about)), id);
    case TurnCompleted(turn) => ClearBalances(c, (a: Approval) => a.target.turn == turn, asked, id);
    case Close => ClearBalances(c.(closed := true), (a: Approval) => true, asked, id);
  }

  /**
   Conservation: every request with an id was answered once, withdrawn once, or is the one that is
   pending under the id. So replies never outnumber requests.
   */
  lemma {:induction false} OneReplyPerRequest(steps: seq<Step>, id: string)
    ensures var c := Run(steps);
      && Asked(steps, id) == Written(c.replies, id) + Count(c.withdrawn, id) + Open(c.approvals, id)
      && Open(c.approvals, id) <= 1 && |c.approvals| <= MAX_APPROVALS
  {
    RunSound(steps);
    OneOpen(Run(steps).approvals, id);
    if steps != [] {
      var init := steps[..|steps| - 1];
      OneReplyPerRequest(init, id);
      RunSound(init);
      HandleBalances(Run(init), steps[|steps| - 1], Asked(init, id), id);
    }
  }

  // ---------------------------------------------------------------- acceptance

  /** The step ends a pending approval; while the connection is closed verdicts, timers and patches do nothing. */
  predicate Ends(step: Step, a: Approval, closed: bool) {
    match step
    case Request(id, _) => id == a.id
    case Unsupported(_) => false
    case Decide(id, serial, _) => !closed && id == a.id && serial == a.serial
    case Timeout(id, serial) => !closed && id == a.id && serial == a.serial
    case Resolved(id, thread) => id == a.id && thread == a.target.thread
    case ThreadGone(thread) => thread == a.target.thread
    case PatchUpdated(target) => !closed && target == a.target
    case TurnCompleted(turn) => turn == a.target.turn
    case Close => !closed
  }

  /** The step registers the approval. */
  predicate Registers(c: Conn, step: Step, a: Approval) {
    step == Request(a.id, Some(a.target)) && a.serial == c.clock
      && !Pending(c.approvals, HasId(a.id)) && |c.approvals| < MAX_APPROVALS
  }

  lemma FinishRest(c: Conn, id: string, serial: nat, decision: Decision, a: Approval)
    requires Sound(c)
    ensures a in Finish(c, id, serial, decision).approvals
      <==> a in c.approvals && (c.closed || !(a.id == id && a.serial == serial))
  {
    RestFacts(c.approvals, HasId(id));
    if Pending(c.approvals, IsRegistration(id, serial)) {
      var b :| b in c.approvals && IsRegistration(id, serial)(b);
      if a in c.approvals && a.id == id { SameId(c.approvals, a, b); }
    } else if a in c.approvals {
      assert !IsRegistration(id, serial)(a);
    }
  }

  /** Pending after a step are exactly the approval it registered and those pending before that it does not end. */
  lemma StepEnds(c: Conn, step: Step, a: Approval)
    requires Sound(c)
    ensures a in Tick(c, step).approvals <==> Registers(c, step, a) || (a in c.approvals && !Ends(step, a, c.closed))
  {
    match step
    case Request(id, target) =>
      RestFacts(c.approvals, HasId(id));
      if a in c.approvals && a.id == id { assert HasId(id)(a); }
      if target.Some? && !Pending(c.approvals, HasId(id)) && |c.approvals| < MAX_APPROVALS {
        assert a in c.approvals ==> !HasId(id)(a);
      }
    case Unsupported(id) =>
    case Decide(id, serial, verdict) => FinishRest(c, id, serial, DecisionOf(verdict), a);
    case Timeout(id, serial) => FinishRest(c, id, serial, Cancel, a);
    case Resolved(id, thread) => RestFacts(c.approvals, (b: Approval) => b.id == id && b.target.thread == thread);
    case ThreadGone(thread) => RestFacts(c.approvals, (b: Approval) => b.target.thread == thread);
    case PatchUpdated(target) => RestFacts(c.approvals, (b: Approval) => b.target == target);
    case TurnCompleted(turn) => RestFacts(c.approvals, (b: Approval) => b.target.turn == turn);
    case Close => RestFacts(c.approvals, (b: Approval) => true);
  }

  /** The approval was registered by its own request, and nothing has ended it since. */
  ghost predicate Alive(steps: seq<Step>, a: Approval) {
    && a.serial < |steps|
    && Registers(Run(steps[..a.serial]), steps[a.serial], a)
    && forall k :: a.serial < k < |steps| ==> !Ends(steps[k], a, Run(steps[..k]).closed)
  }

  lemma AliveSnoc(init: seq<Step>, last: Step, a: Approval)
    ensures Alive(init + [last], a) <==>
      if a.serial == |init| then Registers(Run(init), last, a) else Alive(init, a) && !Ends(last, a, Run(init).closed)
  {
    hide Run, Registers, Ends;
    var steps := init + [last];
    assert forall k :: 0 <= k <= |init| ==> steps[..k] == init[..k];
    assert init[..|init|] == init;
    if a.serial < |init| {
      assert steps[a.serial] == init[a.serial];
      if Alive(steps, a) {
        assert !Ends(steps[|init|], a, Run(steps[..|init|]).closed);
        forall k | a.serial < k < |init|
          ensures !Ends(init[k], a, Run(init[..k]).closed) { assert steps[k] == init[k]; }
      }
      if Alive(init, a) && !Ends(last, a, Run(init).closed) {
        forall k | a.serial < k < |steps| ensures !Ends(steps[k], a, Run(steps[..k]).closed) {
          if k < |init| { assert steps[k] == init[k]; }
        }
      }
    }
  }

  lemma {:induction false} PendingIsAlive(steps: seq<Step>, a: Approval)
    ensures a in Run(steps).approvals <==> Alive(steps, a)
  {
    if steps != [] {
      var init, last := steps[..|steps| - 1], steps[|steps| - 1];
      assert steps == init + [last];
      PendingIsAlive(init, a);
      RunSound(init);
      StepEnds(Run(init), last, a);
      AliveSnoc(init, last, a);
      hide Tick, Ends, Alive;
    }
  }

  /** What a step writes. */
  function News(c: Conn, step: Step): seq<Reply> {
    match step
    case Request(id, target) =>
      if target.None? || Pending(c.approvals, HasId(id)) || |c.approvals| >= MAX_APPROVALS then [Refused(id)] else []
    case Unsupported(id) => [Refused(id)]
    case Decide(id, serial, verdict) =>
      if c.closed || !Pending(c.approvals, IsRegistration(id, serial)) then [] else [Decided(id, DecisionOf(verdict))]
    case Timeout(id, serial) =>
      if c.closed || !Pending(c.approvals, IsRegistration(id, serial)) then [] else [Decided(id, Cancel)]
    case PatchUpdated(target) => if c.closed then [] else Cancels(Ids(c.approvals, (a: Approval) => a.target == target))
    case _ => []
  }

  lemma HandleWrites(c: Conn, step: Step)
    ensures Handle(c, step).replies == c.replies + News(c, step)
  {}

  lemma {:induction false} OnlyCancels(ids: seq<string>)
    ensures forall r :: r in Cancels(ids) ==> r.Decided? && r.decision == Cancel
  {
    if ids != [] { OnlyCancels(ids[1..]); }
  }

  /** Among all that a step writes, only an allowed ruling for a pending registration is an acceptance. */
  lemma NewsAccepts(c: Conn, step: Step, id: string)
    ensures Decided(id, Accept) in News(c, step) <==>
      step.Decide? && step.id == id && step.verdict == Ruling(true, Accept) && !c.closed
      && Pending(c.approvals, IsRegistration(id, step.serial))
  {
    if step.PatchUpdated? { OnlyCancels(Ids(c.approvals, (a: Approval) => a.target == step.patched)); }
  }

  /**
   Among the replies that a step writes is an acceptance exactly if the step is an allowed ruling for a
   registration that its own request made and that no timeout, matching patch, resolution, end of turn or
   thread, closing, earlier verdict or reuse of the id has ended since, and the connection is open.
   */
  lemma AcceptedOnlyAlive(steps: seq<Step>, step: Step, id: string)
    ensures Run(steps).replies <= Run(steps + [step]).replies
    ensures Decided(id, Accept) in Run(steps + [step]).replies[|Run(steps).replies|..] <==>
      step.Decide? && step.id == id && step.verdict == Ruling(true, Accept) && !Run(steps).closed
      && exists a :: Alive(steps, a) && a.id == id && a.serial == step.serial
  {
    var c := Run(steps);
    assert (steps + [step])[..|steps|] == steps;
    assert Run(steps + [step]) == Tick(c, step);
    hide Run, News, Handle, Alive;
    HandleWrites(c, step);
    assert Run(steps + [step]).replies[|c.replies|..] == News(c, step);
    NewsAccepts(c, step, id);
    if step.Decide? {
      forall a ensures a in c.approvals && IsRegistration(id, step.serial)(a)
        <==> Alive(steps, a) && a.id == id && a.serial == step.serial
      {
        PendingIsAlive(steps, a);
      }
    }
  }

  // ---------------------------------------------------------------- the other replies

  lemma {:induction false} CancelsOf(approvals: seq<Approval>, chosen: Approval -> bool, id: string)
    ensures Decided(id, Cancel) in Cancels(Ids(approvals, chosen))
      <==> exists a :: a in approvals && chosen(a) && a.id == id
  {
    if approvals != [] {
      CancelsOf(approvals[1..], chosen, id);
      assert approvals == [approvals[0]] + approvals[1..];
      var rest := Ids(approvals[1..], chosen);
      if chosen(approvals[0]) {
        assert ([approvals[0].id] + rest)[1..] == rest;
        assert Cancels([approvals[0].id] + rest) == [Decided(approvals[0].id, Cancel)] + Cancels(rest);
      } else {
        assert Ids(approvals, chosen) == rest;
      }
    }
  }

  lemma {:induction false} NothingRefused(ids: seq<string>, id: string)
    ensures Refused(id) !in Cancels(ids) && Decided(id, Decline) !in Cancels(ids)
  {
    if ids != [] { NothingRefused(ids[1..], id); }
  }

  /** A registration of the id that nothing has ended yet. */
  ghost predicate Standing(steps: seq<Step>, id: string, serial: nat) {
    exists a :: Alive(steps, a) && a.id == id && a.serial == serial
  }

  lemma StandingIsPending(steps: seq<Step>, id: string, serial: nat)
    ensures Standing(steps, id, serial) <==> Pending(Run(steps).approvals, IsRegistration(id, serial))
  {
    hide Run, Alive;
    forall a ensures a in Run(steps).approvals && IsRegistration(id, serial)(a)
      <==> Alive(steps, a) && a.id == id && a.serial == serial
    {
      PendingIsAlive(steps, a);
    }
  }

  lemma RunWrites(steps: seq<Step>, step: Step)
    ensures Run(steps + [step]).replies == Run(steps).replies + News(Run(steps), step)
  {
    assert (steps + [step])[..|steps|] == steps;
    assert Run(steps + [step]) == Tick(Run(steps), step);
    HandleWrites(Run(steps), step);
    hide Run, News, Handle;
  }

  /** The handler declines: by word, or by a ruling that still holds. */
  predicate Declines(v: Verdict) { v == Word(true) || v == Ruling(true, Decline) }

  /** A handler's verdict that neither accepts nor declines: the other word, an overtaken ruling, an exception. */
  predicate CallsOff(v: Verdict) { !Declines(v) && v != Ruling(true, Accept) }

  lemma NewsDeclines(c: Conn, step: Step, id: string)
    ensures Decided(id, Decline) in News(c, step) <==>
      step.Decide? && step.id == id && Declines(step.verdict) && !c.closed
      && Pending(c.approvals, IsRegistration(id, step.serial))
  {
    if step.PatchUpdated? { NothingRefused(Ids(c.approvals, (a: Approval) => a.target == step.patched), id); }
  }

  lemma NewsCancels(c: Conn, step: Step, id: string)
    ensures Decided(id, Cancel) in News(c, step) <==>
      && !c.closed
      && (|| (step.Decide? && step.id == id && CallsOff(step.verdict)
            && Pending(c.approvals, IsRegistration(id, step.serial)))
          || (step.Timeout? && step.id == id && Pending(c.approvals, IsRegistration(id, step.serial)))
          || (step.PatchUpdated? && exists a :: a in c.approvals && a.id == id && a.target == step.patched))
  {
    if step.PatchUpdated? {
      var about := (a: Approval) => a.target == step.patched;
      CancelsOf(c.approvals, (a: Approval) => a.target == step.patched, id);
      assert forall a :: a in c.approvals ==> (about(a) <==> a.target == step.patched);
      assert (exists a :: a in c.approvals && about(a) && a.id == id)
        <==> (exists a :: a in c.approvals && a.id == id && a.target == step.patched);
    } else if step.Decide? {
      CalledOff(step.verdict);
      hide DecisionOf, CallsOff, Pending;
    }
  }

  lemma CalledOff(v: Verdict)
    ensures DecisionOf(v) == Cancel <==> CallsOff(v)
  {
    match v
    case Word(_) =>
    case Ruling(_, decision) => if decision == Accept {} else if decision == Decline {}
    case Thrown =>
  }

  lemma NewsRefuses(c: Conn, step: Step, id: string)
    ensures Refused(id) in News(c, step) <==>
      || step == Unsupported(id)
      || (step.Request? && step.id == id
          && (step.target.None? || |c.approvals| >= 32 || exists a :: a in c.approvals && a.id == id))
  {
    if step.PatchUpdated? { NothingRefused(Ids(c.approvals, (a: Approval) => a.target == step.patched), id); }
    PendingIs(c.approvals, id);
    hide Pending;
  }

  lemma PendingIs(approvals: seq<Approval>, id: string)
    ensures Pending(approvals, HasId(id)) <==> exists a :: a in approvals && a.id == id
  {
    if a :| a in approvals && a.id == id { assert HasId(id)(a); }
    if Pending(approvals, HasId(id)) {
      var a :| a in approvals && HasId(id)(a);
      assert a.id == id;
    }
  }

  lemma PendingAreAlive(steps: seq<Step>)
    ensures forall a :: a in Run(steps).approvals <==> Alive(steps, a)
  {
    forall a ensures a in Run(steps).approvals <==> Alive(steps, a) { PendingIsAlive(steps, a); }
  }

  /** A step declines exactly if the handler of a standing registration does so on an open connection. */
  lemma DeclinedByHandler(steps: seq<Step>, step: Step, id: string)
    ensures Run(steps + [step]).replies == Run(steps).replies + News(Run(steps), step)
    ensures Decided(id, Decline) in News(Run(steps), step) <==>
      step.Decide? && step.id == id && Declines(step.verdict) && !Run(steps).closed && Standing(steps, id, step.serial)
  {
    RunWrites(steps, step);
    NewsDeclines(Run(steps), step, id);
    if step.Decide? { StandingIsPending(steps, id, step.serial); }
    hide Run, Standing, News, Pending;
  }

  /**
   A step cancels a standing registration of the id exactly if its timer fires, its handler calls it off, or a
   patch about its item arrives, on an open connection.
   */
  lemma CancelledWhen(steps: seq<Step>, step: Step, id: string)
    ensures Decided(id, Cancel) in News(Run(steps), step) <==>
      && !Run(steps).closed
      && (|| (step.Decide? && step.id == id && CallsOff(step.verdict) && Standing(steps, id, step.serial))
          || (step.Timeout? && step.id == id && Standing(steps, id, step.serial))
          || (step.PatchUpdated? && exists a :: Alive(steps, a) && a.id == id && a.target == step.patched))
  {
    NewsCancels(Run(steps), step, id);
    if step.Decide? || step.Timeout? { StandingIsPending(steps, id, step.serial); }
    PendingAreAlive(steps);
    hide Run, Standing, Alive, News, Pending;
  }

  /**
   A request is refused exactly if it is of another kind, is malformed, reuses the id of a standing registration,
   or meets thirty-two of them.
   */
  lemma RefusedWhen(steps: seq<Step>, step: Step, id: string)
    ensures Refused(id) in News(Run(steps), step) <==>
      || step == Unsupported(id)
      || (step.Request? && step.id == id
          && (step.target.None? || |Run(steps).approvals| >= 32 || exists a :: Alive(steps, a) && a.id == id))
  {
    NewsRefuses(Run(steps), step, id);
    PendingAreAlive(steps);
    hide Run, Alive, News;
  }

  // ---------------------------------------------------------------- the connection

  /** The map of approvals, in its order of insertion, and the stream of replies. */
  class Server {
    var approvals: seq<Approval>
    var closed: bool
    var clock: nat
    var replies: seq<Reply>
    ghost var withdrawn: seq<string>

    constructor ()
      ensures State() == IDLE
    {
      approvals, closed, clock, replies, withdrawn := [], false, 0, [], [];
    }

    ghost function State(): Conn
      reads this
    {
      Conn(approvals, closed, clock, replies, withdrawn)
    }

    /** `#clearApprovals`: a loop over the map that deletes as it goes. */
    method ClearApprovals(chosen: Approval -> bool)
      modifies this`approvals, this`withdrawn
      ensures approvals == Rest(old(approvals), chosen)
      ensures withdrawn == old(withdrawn) + Ids(old(approvals), chosen)
    {
      ghost var all, before, n := approvals, withdrawn, 0;
      var i := 0;
      BeginRounds(all, chosen, before);
      while i < |approvals|
        invariant n <= |all| && Cleared(all, chosen, n, approvals, i, before, withdrawn)
        decreases |all| - n
      {
        ClearRound(all, chosen, n, approvals, i, before, withdrawn);
        hide Cleared;
        var a := approvals[i];
        if chosen(a) {
          approvals := approvals[..i] + approvals[i + 1..];
          withdrawn := withdrawn + [a.id];
        } else {
          i := i + 1;
        }
        n := n + 1;
      }
      EndRounds(all, chosen, n, approvals, i, before, withdrawn);
    }

    /** `#finishApproval`, once the caller has found its registration pending. */
    method FinishApproval(id: string, decision: Decision)
      requires DistinctIds(approvals)
      modifies this
      ensures clock == old(clock) && closed == old(closed)
      ensures if closed || !Pending(old(approvals), HasId(id))
        then approvals == old(approvals) && replies == old(replies) && withdrawn == old(withdrawn)
        else approvals == Rest(old(approvals), HasId(id)) && replies == old(replies) + [Decided(id, decision)]
             && withdrawn == old(withdrawn)
    {
      var found := Pending(approvals, HasId(id));
      if !found || closed { return; }
      ghost var before := withdrawn;
      ClearApprovals(HasId(id));
      withdrawn := before;
      replies := replies + [Decided(id, decision)];
    }

    /** The handler settles, or the timer of the registration fires. */
    method SettleApproval(id: string, serial: nat, decision: Decision)
      requires Sound(State())
      modifies this
      ensures State() == Finish(old(State()), id, serial, decision).(clock := old(clock) + 1)
    {
      var current := Pending(approvals, IsRegistration(id, serial));
      if current && !closed {
        assert Pending(approvals, HasId(id)) by {
          var a :| a in approvals && IsRegistration(id, serial)(a);
          assert HasId(id)(a);
        }
        FinishApproval(id, decision);
      }
      clock := clock + 1;
    }

    /** `#handleApproval`. */
    method HandleApproval(id: string, target: Option<Target>)
      modifies this
      ensures State() == Tick(old(State()), Request(id, target))
    {
      var known := Pending(approvals, HasId(id));
      if target.None? || known || |approvals| >= MAX_APPROVALS {
        ClearApprovals(HasId(id));
        replies := replies + [Refused(id)];
      } else {
        approvals := approvals + [Approval(id, target.value, clock)];
      }
      clock := clock + 1;
    }

    /** A request that is not an approval. */
    method RefuseRequest(id: string)
      modifies this
      ensures State() == Tick(old(State()), Unsupported(id))
    {
      replies := replies + [Refused(id)];
      clock := clock + 1;
    }

    /** The `patchUpdated` branch: every approval about the item is cancelled in turn. */
    method CancelPatched(target: Target)
      requires Sound(State())
      modifies this
      ensures State() == Tick(old(State()), PatchUpdated(target))
    {
      var about := (a: Approval) => a.target == target;
      if !closed { CancelChosen(about); }
      clock := clock + 1;
    }

    method CancelChosen(about: Approval -> bool)
      requires DistinctIds(approvals) && !closed
      modifies this
      ensures closed == old(closed) && clock == old(clock) && withdrawn == old(withdrawn)
      ensures approvals == Rest(old(approvals), about)
      ensures replies == old(replies) + Cancels(Ids(old(approvals), about))
    {
      var snapshot := approvals;
      ghost var before := replies;
      BeginRounds(snapshot, about, withdrawn);
      for i := 0 to |snapshot|
        invariant !closed && clock == old(clock) && withdrawn == old(withdrawn)
        invariant approvals == Left(snapshot, about, i) && replies == before + Cancelled(snapshot, about, i)
      {
        var a := snapshot[i];
        CancelRound(snapshot, about, i);
        hide Left, Cancelled, Rest, Pending, HasId, DistinctIds;
        if about(a) { FinishApproval(a.id, Cancel); }
      }
      CancelEnd(snapshot, about);
    }

    /** The remaining notifications, and the end of the connection. */
    method Notify(step: Step)
      requires step.Resolved? || step.ThreadGone? || step.TurnCompleted? || step.Close?
      modifies this
      ensures State() == Tick(old(State()), step)
    {
      match step {
        case Resolved(id, thread) => ClearApprovals((a: Approval) => a.id == id && a.target.thread == thread);
        case ThreadGone(thread) => ClearApprovals((a: Approval) => a.target.thread == thread);
        case TurnCompleted(turn) => ClearApprovals((a: Approval) => a.target.turn == turn);
        case Close =>
          if !closed {
            closed := true;
            ClearApprovals((a: Approval) => true);
          }
      }
      clock := clock + 1;
    }
  }

  lemma {:induction false} RestSnoc(approvals: seq<Approval>, chosen: Approval -> bool, a: Approval)
    ensures Rest(approvals + [a], chosen) == Rest(approvals, chosen) + (if chosen(a) then [] else [a])
    ensures Ids(approvals + [a], chosen) == Ids(approvals, chosen) + (if chosen(a) then [a.id] else [])
  {
    if approvals != [] {
      RestSnoc(approvals[1..], chosen, a);
      assert (approvals + [a])[1..] == approvals[1..] + [a];
    } else {
      assert approvals + [a] == [a];
    }
  }

  lemma {:induction false} CancelsSnoc(ids: seq<string>, id: string)
    ensures Cancels(ids + [id]) == Cancels(ids) + [Decided(id, Cancel)]
  {
    if ids != [] {
      CancelsSnoc(ids[1..], id);
      assert (ids + [id])[1..] == ids[1..] + [id];
    }
  }

  lemma {:induction false} RestAppend(x: seq<Approval>, y: seq<Approval>, chosen: Approval -> bool)
    ensures Rest(x + y, chosen) == Rest(x, chosen) + Rest(y, chosen)
  {
    if x == [] { assert x + y == y; } else {
      assert (x + y)[1..] == x[1..] + y;
      RestAppend(x[1..], y, chosen);
    }
  }

  lemma {:induction false} RestAll(x: seq<Approval>, chosen: Approval -> bool)
    requires forall a :: a in x ==> !chosen(a)
    ensures Rest(x, chosen) == x
  {
    if x != [] { RestAll(x[1..], chosen); }
  }

  /** One round over the approvals. */
  lemma Round(all: seq<Approval>, chosen: Approval -> bool, i: nat)
    requires i < |all|
    ensures all[..i + 1] == all[..i] + [all[i]] && all[i..] == [all[i]] + all[i + 1..]
    ensures Rest(all[..i + 1], chosen) == Rest(all[..i], chosen) + (if chosen(all[i]) then [] else [all[i]])
    ensures Ids(all[..i + 1], chosen) == Ids(all[..i], chosen) + (if chosen(all[i]) then [all[i].id] else [])
    ensures Cancels(Ids(all[..i + 1], chosen))
      == Cancels(Ids(all[..i], chosen)) + (if chosen(all[i]) then [Decided(all[i].id, Cancel)] else [])
  {
    assert all[..i + 1] == all[..i] + [all[i]];
    RestSnoc(all[..i], chosen, all[i]);
    CancelsSnoc(Ids(all[..i], chosen), all[i].id);
    if !chosen(all[i]) { assert Ids(all[..i + 1], chosen) == Ids(all[..i], chosen); }
  }

  lemma OthersHaveOtherIds(all: seq<Approval>, chosen: Approval -> bool, i: nat)
    requires DistinctIds(all) && i < |all|
    ensures forall b :: b in Rest(all[..i], chosen) ==> b in all[..i] && !HasId(all[i].id)(b)
    ensures forall b :: b in all[i + 1..] ==> !HasId(all[i].id)(b)
    ensures DistinctIds(Rest(all[..i], chosen))
  {
    assert DistinctIds(all[..i]);
    RestFacts(all[..i], chosen);
    forall b | b in all[..i] ensures !HasId(all[i].id)(b) {
      var j :| 0 <= j < i && all[j] == b;
    }
    forall b | b in all[i + 1..] ensures !HasId(all[i].id)(b) {
      var j :| i < j < |all| && all[j] == b;
    }
  }

  /** What finishing the approval at `i` removes once the earlier ones are dealt with. */
  lemma RestFinds(all: seq<Approval>, chosen: Approval -> bool, i: nat)
    requires DistinctIds(all) && i < |all|
    ensures var now, a := Rest(all[..i], chosen) + all[i..], all[i];
      && DistinctIds(now) && Pending(now, HasId(a.id))
      && Rest(now, HasId(a.id)) == Rest(all[..i], chosen) + all[i + 1..]
  {
    var a, front, back := all[i], Rest(all[..i], chosen), all[i + 1..];
    OthersHaveOtherIds(all, chosen, i);
    JoinDistinct(all, i, front);
    var now := front + all[i..];
    assert all[i..] == [a] + back;
    assert a in now && HasId(a.id)(a);
    RestAll(front, HasId(a.id));
    RestAll(back, HasId(a.id));
    RestAppend(front, [a] + back, HasId(a.id));
    assert ([a] + back)[1..] == back;
    assert Rest([a] + back, HasId(a.id)) == back;
  }

  /** The approvals once the first `n` are cleared, with the loop standing at `i`. */
  ghost predicate Cleared(all: seq<Approval>, chosen: Approval -> bool, n: nat, approvals: seq<Approval>, i: int,
                          before: seq<string>, withdrawn: seq<string>)
    requires n <= |all|
  {
    && approvals == Rest(all[..n], chosen) + all[n..] && i == |Rest(all[..n], chosen)| && i <= |approvals|
    && withdrawn == before + Ids(all[..n], chosen)
  }

  lemma BeginRounds(all: seq<Approval>, chosen: Approval -> bool, before: seq<string>)
    ensures Cleared(all, chosen, 0, all, 0, before, before)
    ensures Left(all, chosen, 0) == all && Cancelled(all, chosen, 0) == []
  {
    assert all[..0] == [] && all[0..] == all && before + [] == before;
  }

  lemma ClearRound(all: seq<Approval>, chosen: Approval -> bool, n: nat, approvals: seq<Approval>, i: int,
                   before: seq<string>, withdrawn: seq<string>)
    requires n <= |all| && Cleared(all, chosen, n, approvals, i, before, withdrawn) && i < |approvals|
    ensures 0 <= i && n < |all| && approvals[i] == all[n]
    ensures if chosen(approvals[i])
      then Cleared(all, chosen, n + 1, approvals[..i] + approvals[i + 1..], i, before, withdrawn + [approvals[i].id])
      else Cleared(all, chosen, n + 1, approvals, i + 1, before, withdrawn)
  {
    Round(all, chosen, n);
    hide Rest, Ids;
    var front := Rest(all[..n], chosen);
    assert approvals[i] == all[n..][0];
    assert approvals[..i] == front && approvals[i + 1..] == all[n + 1..];
    if !chosen(approvals[i]) { assert front + [all[n]] + all[n + 1..] == approvals; }
  }

  lemma EndRounds(all: seq<Approval>, chosen: Approval -> bool, n: nat, approvals: seq<Approval>, i: int,
                  before: seq<string>, withdrawn: seq<string>)
    requires n <= |all| && Cleared(all, chosen, n, approvals, i, before, withdrawn) && i >= |approvals|
    ensures approvals == Rest(all, chosen) && withdrawn == before + Ids(all, chosen)
  {
    assert all[n..] == [] && all[..n] == all;
  }

  /** What is left once the first `i` approvals are dealt with, and what was written. */
  ghost function Left(all: seq<Approval>, about: Approval -> bool, i: nat): seq<Approval>
    requires i <= |all|
  {
    Rest(all[..i], about) + all[i..]
  }

  ghost function Cancelled(all: seq<Approval>, about: Approval -> bool, i: nat): seq<Reply>
    requires i <= |all|
  {
    Cancels(Ids(all[..i], about))
  }

  lemma CancelRound(all: seq<Approval>, about: Approval -> bool, i: nat)
    requires DistinctIds(all) && i < |all|
    ensures DistinctIds(Left(all, about, i)) && Pending(Left(all, about, i), HasId(all[i].id))
    ensures if about(all[i])
      then Left(all, about, i + 1) == Rest(Left(all, about, i), HasId(all[i].id))
           && Cancelled(all, about, i + 1) == Cancelled(all, about, i) + [Decided(all[i].id, Cancel)]
      else Left(all, about, i + 1) == Left(all, about, i) && Cancelled(all, about, i + 1) == Cancelled(all, about, i)
  {
    Round(all, about, i);
    RestFinds(all, about, i);
    hide Rest, Ids, Cancels, Pending, HasId, DistinctIds;
    if about(all[i]) {
      assert Rest(all[..i], about) + [] == Rest(all[..i], about);
    } else {
      assert Rest(all[..i], about) + [all[i]] + all[i + 1..] == Rest(all[..i], about) + all[i..];
    }
  }

  lemma CancelEnd(all: seq<Approval>, about: Approval -> bool)
    ensures Left(all, about, |all|) == Rest(all, about) && Cancelled(all, about, |all|) == Cancels(Ids(all, about))
  {
    assert all[..|all|] == all && all[|all|..] == [];
  }

  lemma JoinDistinct(all: seq<Approval>, i: nat, front: seq<Approval>)
    requires DistinctIds(all) && i < |all| && DistinctIds(front) && forall b :: b in front ==> b in all[..i]
    ensures DistinctIds(front + all[i..])
  {
    var now := front + all[i..];
    forall j, k | 0 <= j < k < |now| ensures now[j].id != now[k].id {
      if j < |front| <= k {
        assert front[j] in all[..i];
        var m :| 0 <= m < i && all[m] == front[j];
        assert now[k] == all[i + (k - |front|)];
      } else if |front| <= j {
        assert now[j] == all[i + (j - |front|)] && now[k] == all[i + (k - |front|)];
      }
    }
  }
}
