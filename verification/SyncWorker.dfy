/**
 Synchronization of WeCom accounts: coalesced requests, one worker per account, retry timers, and four
 request slots that are handed over in order. A worker is cut into the pieces between its awaits.
 */
module SyncWorker {
  import opened Basics

  const MAX_SYNC_PAGES: nat := 100
  const MAX_CONCURRENT: nat := 4

  datatype Request = Request(live: bool, deferred: bool, attempt: nat)

  /** How a drain ended: it returned true, it returned false, or it threw. */
  datatype Outcome = Completed | Stopped | Threw

  /** Where a worker is suspended. */
  datatype Phase =
    | Waiting(page: nat)          // for a slot
    | Granted(page: nat)          // a slot was granted, the worker has not resumed
    | Denied                      // the slot was refused, the worker has not resumed
    | Calling(page: nat)          // for the provider
    | Drained(outcome: Outcome)   // for its drain, which has ended
    | Ended                       // for its `finally`

  /** A worker and the request that it took last. */
  datatype Worker = Worker(request: Request, phase: Phase)

  /** The service; `asked` and `answered` are history variables over slot waiters. */
  datatype Sync = Sync(
    accepting: bool,
    workers: map<string, Worker>,
    pending: map<string, Request>,
    live: set<string>,
    retries: map<string, nat>,
    nextTimer: nat,
    waiters: seq<string>,
    active: int,
    asked: seq<string>,
    answered: seq<string>)

  const FRESH := Sync(true, map[], map[], {}, map[], 0, [], 0, [], [])

  // ---------------------------------------------------------------- slots

  function SetPhase(workers: map<string, Worker>, a: string, phase: Phase): map<string, Worker> {
    if a in workers then workers[a := workers[a].(phase := phase)] else workers
  }

  /** `#acquireSyncSlot`, called by the worker of `a`. */
  function AcquireSlot(s: Sync, a: string, page: nat): Sync {
    if !s.accepting then s.(workers := SetPhase(s.workers, a, Denied))
    else if s.active < MAX_CONCURRENT then s.(active := s.active + 1, workers := SetPhase(s.workers, a, Granted(page)))
    else s.(waiters := s.waiters + [a], asked := s.asked + [a], workers := SetPhase(s.workers, a, Waiting(page)))
  }

  function DenyAll(workers: map<string, Worker>, waiters: seq<string>): map<string, Worker>
    decreases |waiters|
  {
    if waiters == [] then workers else DenyAll(SetPhase(workers, waiters[0], Denied), waiters[1..])
  }

  function PageOf(workers: map<string, Worker>, a: string): nat {
    if a in workers && workers[a].phase.Waiting? then workers[a].phase.page else 0
  }

  /** `#releaseSyncSlot`: the slot goes to the first waiter, if there is one. */
  function ReleaseSlot(s: Sync): Sync {
    if s.waiters == [] then s.(active := s.active - 1)
    else if !s.accepting then
      s.(active := s.active - 1, waiters := [], answered := s.answered + s.waiters,
        workers := DenyAll(s.workers, s.waiters))
    else
      s.(waiters := s.waiters[1..], answered := s.answered + [s.waiters[0]],
         workers := SetPhase(s.workers, s.waiters[0], Granted(PageOf(s.workers, s.waiters[0]))))
  }

  // ---------------------------------------------------------------- workers

  function BeginDrain(s: Sync, a: string, request: Request, fails: bool): Sync {
    var started := s.(workers := s.workers[a := Worker(request, Drained(Threw))]);
    if fails then started else AcquireSlot(started, a, 0)
  }

  /** The head of the loop of `#runWorker`; `fails`: the cursor cannot be read. */
  function TakeNext(s: Sync, a: string, fails: bool): Sync {
    if !s.accepting || a !in s.pending then s.(workers := SetPhase(s.workers, a, Ended))
    else
      var request := s.pending[a];
      BeginDrain(s.(pending := s.pending - {a}, live := if request.live then s.live - {a} else s.live), a, request,
        fails)
  }

  const NO_REQUEST := Request(false, false, 0)

  /** `#startWorker`. */
  function StartWorker(s: Sync, a: string, fails: bool): Sync {
    if a in s.workers then s else TakeNext(s.(workers := s.workers[a := Worker(NO_REQUEST, Ended)]), a, fails)
  }

  function Min(a: nat, b: nat): nat { if a < b then a else b }

  /** A request joins the pending one. */
  function Merge(pending: map<string, Request>, a: string, live: bool, deferred: bool, attempt: nat)
    : map<string, Request> {
    var current := if a in pending then pending[a] else Request(false, false, attempt);
    pending[a := Request(current.live || live, current.deferred || deferred, Min(current.attempt, attempt))]
  }

  /** `enqueue` and each account of `catchUp`, by `#requestSync`. */
  function RequestSync(s: Sync, a: string, deferred: bool, fails: bool): Sync {
    if !s.accepting then s
    else StartWorker(s.(
      pending := Merge(s.pending, a, !deferred, deferred, 0),
      live := if deferred then s.live else s.live + {a},
      retries := s.retries - {a}), a, fails)
  }

  /** The `catch` of `#runWorker`, with `#scheduleRetry`. */
  function RetryLater(s: Sync, a: string, request: Request): Sync {
    s.(
      pending := Merge(s.pending, a, request.live, request.deferred, request.attempt + 1),
      retries := s.retries[a := s.nextTimer],
      nextTimer := s.nextTimer + 1,
      workers := SetPhase(s.workers, a, Ended))
  }

  /** The drain wants only old messages. */
  predicate IsDeferred(r: Request) { !r.live && r.deferred }

  /** What the provider or the store made of one page. */
  datatype Answer = Failed | Invalid | Last | More

  /** The drain of `a` ends while it holds a slot. */
  function LeaveSlot(s: Sync, a: string, outcome: Outcome): Sync {
    ReleaseSlot(s.(workers := SetPhase(s.workers, a, Drained(outcome))))
  }

  /** The continuation of the provider call: the slot is released first. */
  function Answered(s: Sync, a: string, answer: Answer): Sync
    requires a in s.workers && s.workers[a].phase.Calling?
  {
    var w := s.workers[a];
    if answer == Failed then LeaveSlot(s, a, Threw)
    else if !s.accepting then LeaveSlot(s, a, Stopped)
    else if answer == Invalid then LeaveSlot(s, a, Threw)
    else if IsDeferred(w.request) && a in s.live then LeaveSlot(s, a, Stopped)
    else if answer == Last then LeaveSlot(s, a, Completed)
    else if w.phase.page + 1 >= MAX_SYNC_PAGES then LeaveSlot(s, a, Threw)
    else AcquireSlot(LeaveSlot(s, a, Completed), a, w.phase.page + 1)
  }

  /** A suspended worker resumes. */
  function Continued(s: Sync, a: string, fails: bool): Sync
    requires a in s.workers
  {
    var w := s.workers[a];
    match w.phase
    case Granted(page) =>
      if s.accepting then s.(workers := SetPhase(s.workers, a, Calling(page)))
      else LeaveSlot(s, a, Stopped)
    case Denied => s.(workers := SetPhase(s.workers, a, Drained(Stopped)))
    case Drained(outcome) =>
      if outcome == Threw then
        if s.accepting then RetryLater(s, a, w.request) else s.(workers := SetPhase(s.workers, a, Ended))
      else TakeNext(s, a, fails)
    case Ended =>
      var gone := s.(workers := s.workers - {a});
      if s.accepting && a in s.pending && a !in s.retries then StartWorker(gone, a, fails) else gone
    case Waiting(_) => s
    case Calling(_) => s
  }

  /** A retry timer fires; one that was cancelled or replaced does nothing. */
  function Fired(s: Sync, a: string, timer: nat, fails: bool): Sync {
    if a !in s.retries || s.retries[a] != timer then s
    else
      var fired := s.(retries := s.retries - {a});
      if s.accepting then StartWorker(fired, a, fails) else fired
  }

  /** `stopAccepting`. */
  function StopAccepting(s: Sync): Sync {
    if !s.accepting then s
    else s.(accepting := false, pending := map[], retries := map[], waiters := [],
            answered := s.answered + s.waiters, workers := DenyAll(s.workers, s.waiters))
  }

  datatype Step =
    | Ask(a: string, deferred: bool, fails: bool)
    | Resume(a: string, fails: bool)
    | Reply(a: string, answer: Answer)
    | Fire(a: string, timer: nat, fails: bool)
    | Stop

  function Apply(s: Sync, step: Step): Sync {
    match step
    case Ask(a, deferred, fails) => RequestSync(s, a, deferred, fails)
    case Resume(a, fails) => if a in s.workers then Continued(s, a, fails) else s
    case Reply(a, answer) => if a in s.workers && s.workers[a].phase.Calling? then Answered(s, a, answer) else s
    case Fire(a, timer, fails) => Fired(s, a, timer, fails)
    case Stop => StopAccepting(s)
  }

  function Run(s: Sync, steps: seq<Step>): Sync
    decreases |steps|
  {
    if steps == [] then s else Run(Apply(s, steps[0]), steps[1..])
  }

  // ---------------------------------------------------------------- the invariant

  predicate Holding(p: Phase) { p.Granted? || p.Calling? }

  /** The accounts whose worker holds a slot, and those whose worker waits for one. */
  function Holders(workers: map<string, Worker>): set<string> {
    set a | a in workers && Holding(workers[a].phase)
  }

  function Blocked(workers: map<string, Worker>): set<string> {
    set a | a in workers && workers[a].phase.Waiting?
  }

  ghost predicate Distinct(keys: seq<string>) {
    forall i, j :: 0 <= i < j < |keys| ==> keys[i] != keys[j]
  }

  /** Every slot has a holder, and waiting workers stand in the queue. */
  ghost predicate SlotsOk(workers: map<string, Worker>, waiters: seq<string>, active: int) {
    && active == |Holders(workers)|
    && Distinct(waiters)
    && (forall a :: a in waiters <==> a in Blocked(workers))
  }

  /** Nobody waits while a slot is free, or after the stop. */
  ghost predicate Served(s: Sync) {
    && s.active <= MAX_CONCURRENT
    && (s.waiters != [] ==> s.accepting && s.active == MAX_CONCURRENT)
  }

  /**
    * While accepting, a pending request has a worker or a timer, a live request is pending as such,
    * and no slot is refused.
    */
  ghost predicate RequestsOk(s: Sync) {
    s.accepting ==>
      && (forall a :: a in s.pending ==> a in s.workers || a in s.retries)
      && (forall a :: a in s.live ==> a in s.pending && s.pending[a].live)
      && (forall a :: a in s.workers ==> !s.workers[a].phase.Denied?)
  }

  ghost predicate AnsweredOnce(s: Sync) {
    multiset(s.asked) == multiset(s.answered) + multiset(s.waiters)
  }

  ghost predicate PagesOk(workers: map<string, Worker>) {
    forall a :: a in workers ==>
      (workers[a].phase.Waiting? || workers[a].phase.Granted? || workers[a].phase.Calling? ==>
        workers[a].phase.page < MAX_SYNC_PAGES)
  }

  ghost predicate Inv(s: Sync) {
    SlotsOk(s.workers, s.waiters, s.active) && Served(s) && RequestsOk(s) && AnsweredOnce(s) && PagesOk(s.workers)
  }

  // ---------------------------------------------------------------- phases and slots

  /** A worker that neither holds nor awaits a slot. */
  predicate Neutral(p: Phase) { !Holding(p) && !p.Waiting? }

  lemma SetPhaseFacts(workers: map<string, Worker>, a: string, phase: Phase)
    requires a in workers
    ensures SetPhase(workers, a, phase).Keys == workers.Keys
    ensures Holders(SetPhase(workers, a, phase)) == (Holders(workers) - {a}) + (if Holding(phase) then {a} else {})
    ensures Blocked(SetPhase(workers, a, phase)) == (Blocked(workers) - {a}) + (if phase.Waiting? then {a} else {})
  {}

  lemma PutFacts(workers: map<string, Worker>, a: string, w: Worker)
    requires a in workers ==> Neutral(workers[a].phase)
    requires Neutral(w.phase)
    ensures Holders(workers[a := w]) == Holders(workers) && Blocked(workers[a := w]) == Blocked(workers)
  {}

  lemma RemoveFacts(workers: map<string, Worker>, a: string)
    requires a in workers ==> Neutral(workers[a].phase)
    ensures Holders(workers - {a}) == Holders(workers) && Blocked(workers - {a}) == Blocked(workers)
  {}

  lemma QueueAdd(waiters: seq<string>, a: string)
    requires Distinct(waiters) && a !in waiters
    ensures Distinct(waiters + [a]) && forall b :: b in waiters + [a] <==> b in waiters || b == a
  {}

  lemma QueuePop(waiters: seq<string>)
    requires Distinct(waiters) && waiters != []
    ensures Distinct(waiters[1..]) && (forall b :: b in waiters[1..] <==> b in waiters && b != waiters[0])
    ensures multiset(waiters) == multiset{waiters[0]} + multiset(waiters[1..])
  {
    assert waiters == [waiters[0]] + waiters[1..];
    assert forall i :: 0 <= i < |waiters[1..]| ==> waiters[1..][i] == waiters[i + 1];
  }

  /** The part of the invariant about slots. */
  ghost predicate Slotted(s: Sync) {
    SlotsOk(s.workers, s.waiters, s.active) && Served(s) && AnsweredOnce(s) && PagesOk(s.workers)
  }

  lemma OneMore<T>(all: set<T>, x: T)
    ensures x !in all ==> |all + {x}| == |all| + 1 && all - {x} == all
    ensures x in all ==> |all - {x}| == |all| - 1
    ensures (all - {x}) + {} == all - {x}
  {}

  lemma SlotsGrant(workers: map<string, Worker>, waiters: seq<string>, active: int, a: string, page: nat)
    requires SlotsOk(workers, waiters, active) && a in workers && Neutral(workers[a].phase)
    ensures SlotsOk(SetPhase(workers, a, Granted(page)), waiters, active + 1)
  {
    SetPhaseFacts(workers, a, Granted(page));
    assert a !in Holders(workers) && a !in Blocked(workers);
    hide Holders, Blocked, Distinct, SetPhase;
    OneMore(Holders(workers), a);
    OneMore(Blocked(workers), a);
  }

  lemma SlotsWait(workers: map<string, Worker>, waiters: seq<string>, active: int, a: string, page: nat)
    requires SlotsOk(workers, waiters, active) && a in workers && Neutral(workers[a].phase)
    ensures SlotsOk(SetPhase(workers, a, Waiting(page)), waiters + [a], active)
  {
    SetPhaseFacts(workers, a, Waiting(page));
    assert a !in Holders(workers) && a !in Blocked(workers);
    hide Holders, Blocked, SetPhase;
    OneMore(Holders(workers), a);
    QueueAdd(waiters, a);
    hide Distinct;
  }

  lemma SlotsLeave(workers: map<string, Worker>, waiters: seq<string>, active: int, a: string, phase: Phase)
    requires SlotsOk(workers, waiters, active) && a in workers && Holding(workers[a].phase) && Neutral(phase)
    ensures SlotsOk(SetPhase(workers, a, phase), waiters, active - 1)
  {
    SetPhaseFacts(workers, a, phase);
    assert a in Holders(workers) && a !in Blocked(workers);
    hide Holders, Blocked, Distinct, SetPhase;
    OneMore(Holders(workers), a);
    OneMore(Blocked(workers), a);
  }

  lemma SlotsHand(workers: map<string, Worker>, waiters: seq<string>, active: int, page: nat)
    requires SlotsOk(workers, waiters, active) && waiters != []
    ensures waiters[0] in workers && workers[waiters[0]].phase.Waiting?
    ensures SlotsOk(SetPhase(workers, waiters[0], Granted(page)), waiters[1..], active + 1)
  {
    var a := waiters[0];
    assert a in waiters && a in Blocked(workers) && a !in Holders(workers);
    SetPhaseFacts(workers, a, Granted(page));
    QueuePop(waiters);
    hide Holders, Blocked, Distinct, SetPhase;
    OneMore(Holders(workers), a);
    OneMore(Blocked(workers), a);
  }

  lemma SlotsSame(workers: map<string, Worker>, waiters: seq<string>, active: int, a: string, phase: Phase)
    requires SlotsOk(workers, waiters, active) && a in workers
    requires (Neutral(workers[a].phase) && Neutral(phase)) || (Holding(workers[a].phase) && Holding(phase))
    ensures SlotsOk(SetPhase(workers, a, phase), waiters, active)
  {
    assert Holders(SetPhase(workers, a, phase)) == Holders(workers);
    assert Blocked(SetPhase(workers, a, phase)) == Blocked(workers);
    hide Holders, Blocked, Distinct, SetPhase;
  }

  lemma PagesSet(workers: map<string, Worker>, a: string, phase: Phase)
    requires PagesOk(workers)
    requires phase.Waiting? || phase.Granted? || phase.Calling? ==> phase.page < MAX_SYNC_PAGES
    ensures PagesOk(SetPhase(workers, a, phase)) && SetPhase(workers, a, phase).Keys == workers.Keys
  {}

  lemma AnsweredMore(asked: seq<string>, answered: seq<string>, waiters: seq<string>)
    requires multiset(asked) == multiset(answered) + multiset(waiters)
    ensures forall a {:trigger asked + [a]} :: multiset(asked + [a]) == multiset(answered) + multiset(waiters + [a])
    ensures waiters != [] ==> multiset(asked) == multiset(answered + [waiters[0]]) + multiset(waiters[1..])
  {
    if waiters != [] { assert waiters == [waiters[0]] + waiters[1..]; }
  }

  /** A slot request by a worker that runs. */
  lemma AcquireKeeps(s: Sync, a: string, page: nat)
    requires Slotted(s) && a in s.workers && Neutral(s.workers[a].phase) && page < MAX_SYNC_PAGES
    ensures Slotted(AcquireSlot(s, a, page)) && AcquireSlot(s, a, page).workers.Keys == s.workers.Keys
  {
    hide SlotsOk, PagesOk, SetPhase;
    SlotsSame(s.workers, s.waiters, s.active, a, Denied);
    SlotsGrant(s.workers, s.waiters, s.active, a, page);
    SlotsWait(s.workers, s.waiters, s.active, a, page);
    PagesSet(s.workers, a, Denied);
    PagesSet(s.workers, a, Granted(page));
    PagesSet(s.workers, a, Waiting(page));
    AnsweredMore(s.asked, s.answered, s.waiters);
  }

  /** Every worker that waits is as before, once a slot was freed. */
  ghost predicate Freed(s: Sync) {
    && SlotsOk(s.workers, s.waiters, s.active - 1) && AnsweredOnce(s) && PagesOk(s.workers)
    && s.active <= MAX_CONCURRENT && (s.waiters != [] ==> s.accepting && s.active == MAX_CONCURRENT)
  }

  /** A holder moves on and gives its slot back. */
  lemma HolderLeaves(s: Sync, a: string, phase: Phase)
    requires Slotted(s) && a in s.workers && Holding(s.workers[a].phase) && Neutral(phase)
    ensures Freed(s.(workers := SetPhase(s.workers, a, phase))) && SetPhase(s.workers, a, phase).Keys == s.workers.Keys
  {
    hide SlotsOk, PagesOk, SetPhase;
    SlotsLeave(s.workers, s.waiters, s.active, a, phase);
    PagesSet(s.workers, a, phase);
  }

  lemma PageBound(workers: map<string, Worker>, a: string)
    requires PagesOk(workers)
    ensures PageOf(workers, a) < MAX_SYNC_PAGES
  {}

  lemma ReleaseKeeps(s: Sync)
    requires Freed(s)
    ensures Slotted(ReleaseSlot(s)) && ReleaseSlot(s).workers.Keys == s.workers.Keys
  {
    hide SlotsOk, PagesOk, SetPhase;
    if s.waiters != [] {
      var a := s.waiters[0];
      PageBound(s.workers, a);
      SlotsHand(s.workers, s.waiters, s.active - 1, PageOf(s.workers, a));
      PagesSet(s.workers, a, Granted(PageOf(s.workers, a)));
      AnsweredMore(s.asked, s.answered, s.waiters);
    }
  }

  lemma {:induction false} DenyAllFacts(workers: map<string, Worker>, waiters: seq<string>)
    requires forall a :: a in waiters ==> a in Blocked(workers)
    requires Distinct(waiters)
    ensures DenyAll(workers, waiters).Keys == workers.Keys
    ensures Holders(DenyAll(workers, waiters)) == Holders(workers)
    ensures forall a :: a in Blocked(DenyAll(workers, waiters)) <==> a in Blocked(workers) && a !in waiters
    ensures PagesOk(workers) ==> PagesOk(DenyAll(workers, waiters))
    decreases |waiters|
  {
    if waiters != [] {
      var next := SetPhase(workers, waiters[0], Denied);
      assert waiters[0] in waiters && waiters[0] in Blocked(workers);
      SetPhaseFacts(workers, waiters[0], Denied);
      QueuePop(waiters);
      assert forall a :: a in waiters[1..] ==> a in Blocked(next);
      assert Holders(next) == Holders(workers);
      DenyAllFacts(next, waiters[1..]);
    }
  }

  // ---------------------------------------------------------------- workers

  /** The worker runs: it may begin a drain. */
  lemma BeginDrainKeeps(s: Sync, a: string, request: Request, fails: bool)
    requires Slotted(s) && a in s.workers && Neutral(s.workers[a].phase)
    ensures Slotted(BeginDrain(s, a, request, fails)) && BeginDrain(s, a, request, fails).workers.Keys == s.workers.Keys
  {
    PutFacts(s.workers, a, Worker(request, Drained(Threw)));
    hide Holders, Blocked;
    if !fails { AcquireKeeps(s.(workers := s.workers[a := Worker(request, Drained(Threw))]), a, 0); }
  }

  lemma NeutralPhase(s: Sync, a: string, phase: Phase)
    requires Slotted(s) && a in s.workers && Neutral(s.workers[a].phase) && Neutral(phase)
    ensures Slotted(s.(workers := SetPhase(s.workers, a, phase)))
    ensures SetPhase(s.workers, a, phase).Keys == s.workers.Keys
  {
    PutFacts(s.workers, a, s.workers[a].(phase := phase));
    hide Holders, Blocked;
  }

  /** Tables other than the slots do not matter to the slots. */
  lemma SameSlots(s: Sync, t: Sync)
    requires Slotted(s) && t == s.(pending := t.pending, live := t.live, retries := t.retries, nextTimer := t.nextTimer)
    ensures Slotted(t)
  {}

  lemma TakeNextKeeps(s: Sync, a: string, fails: bool)
    requires Slotted(s) && a in s.workers && Neutral(s.workers[a].phase)
    ensures Slotted(TakeNext(s, a, fails)) && TakeNext(s, a, fails).workers.Keys == s.workers.Keys
  {
    hide Slotted;
    if !s.accepting || a !in s.pending {
      NeutralPhase(s, a, Ended);
    } else {
      var request := s.pending[a];
      var taken := s.(pending := s.pending - {a}, live := if request.live then s.live - {a} else s.live);
      SameSlots(s, taken);
      BeginDrainKeeps(taken, a, request, fails);
    }
  }

  lemma StartWorkerKeeps(s: Sync, a: string, fails: bool)
    requires Slotted(s)
    ensures Slotted(StartWorker(s, a, fails)) && StartWorker(s, a, fails).workers.Keys == s.workers.Keys + {a}
  {
    if a !in s.workers {
      PutFacts(s.workers, a, Worker(NO_REQUEST, Ended));
      var started := s.(workers := s.workers[a := Worker(NO_REQUEST, Ended)]);
      assert Slotted(started) by { hide Holders, Blocked; }
      hide Slotted;
      TakeNextKeeps(started, a, fails);
    }
  }

  lemma EndKeeps(s: Sync, a: string, fails: bool)
    requires Slotted(s) && a in s.workers && s.workers[a].phase.Ended?
    ensures Slotted(Continued(s, a, fails))
  {
    RemoveFacts(s.workers, a);
    var gone := s.(workers := s.workers - {a});
    assert Slotted(gone) by { hide Holders, Blocked; }
    hide Slotted;
    if s.accepting && a in s.pending && a !in s.retries { StartWorkerKeeps(gone, a, fails); }
  }

  lemma CallKeeps(s: Sync, a: string)
    requires Slotted(s) && a in s.workers && s.workers[a].phase.Granted?
    ensures Slotted(s.(workers := SetPhase(s.workers, a, Calling(s.workers[a].phase.page))))
  {
    assert s.workers[a].phase.page < MAX_SYNC_PAGES;
    hide SlotsOk, PagesOk, SetPhase;
    SlotsSame(s.workers, s.waiters, s.active, a, Calling(s.workers[a].phase.page));
    PagesSet(s.workers, a, Calling(s.workers[a].phase.page));
  }

  lemma LeaveKeeps(s: Sync, a: string, outcome: Outcome)
    requires Slotted(s) && a in s.workers && Holding(s.workers[a].phase)
    ensures var after := LeaveSlot(s, a, outcome);
      Slotted(after) && after.workers.Keys == s.workers.Keys
  {
    HolderLeaves(s, a, Drained(outcome));
    hide Slotted, Freed, ReleaseSlot;
    ReleaseKeeps(s.(workers := SetPhase(s.workers, a, Drained(outcome))));
  }

  lemma ContinuedKeeps(s: Sync, a: string, fails: bool)
    requires Slotted(s) && a in s.workers
    ensures Slotted(Continued(s, a, fails))
  {
    hide Slotted, LeaveSlot, SetPhase, TakeNext;
    var phase := s.workers[a].phase;
    if phase.Granted? {
      if s.accepting { CallKeeps(s, a); } else { LeaveKeeps(s, a, Stopped); }
    } else if phase.Ended? {
      EndKeeps(s, a, fails);
    } else if phase.Denied? {
      NeutralPhase(s, a, Drained(Stopped));
    } else if phase.Drained? && phase.outcome == Threw {
      NeutralPhase(s, a, Ended);
      if s.accepting {
        SameSlots(s.(workers := SetPhase(s.workers, a, Ended)), RetryLater(s, a, s.workers[a].request));
      }
    } else if phase.Drained? {
      TakeNextKeeps(s, a, fails);
    }
  }

  lemma AnotherPageKeeps(s: Sync, a: string, page: nat)
    requires Slotted(s) && a in s.workers && s.workers[a].phase.Calling? && page < MAX_SYNC_PAGES
    ensures var after := AcquireSlot(LeaveSlot(s, a, Completed), a, page);
      Slotted(after) && after.workers.Keys == s.workers.Keys
  {
    StillNeutral(s, a);
    hide Slotted, LeaveSlot, AcquireSlot;
    LeaveKeeps(s, a, Completed);
    AcquireKeeps(LeaveSlot(s, a, Completed), a, page);
  }

  lemma AnsweredKeeps(s: Sync, a: string, answer: Answer)
    requires Slotted(s) && a in s.workers && s.workers[a].phase.Calling?
    ensures Slotted(Answered(s, a, answer)) && Answered(s, a, answer).workers.Keys == s.workers.Keys
  {
    hide Slotted, LeaveSlot, AcquireSlot;
    LeaveKeeps(s, a, Completed);
    LeaveKeeps(s, a, Stopped);
    LeaveKeeps(s, a, Threw);
    var page := s.workers[a].phase.page + 1;
    if page < MAX_SYNC_PAGES { AnotherPageKeeps(s, a, page); }
  }

  /** Handing a slot over does not touch the worker that gave it back. */
  lemma StillNeutral(s: Sync, a: string)
    requires Slotted(s) && a in s.workers && s.workers[a].phase.Calling?
    ensures var after := LeaveSlot(s, a, Completed);
      a in after.workers && after.workers[a] == s.workers[a].(phase := Drained(Completed))
  {
    if s.waiters != [] { assert s.waiters[0] in s.waiters && s.waiters[0] in Blocked(s.workers); }
  }

  lemma StopKeeps(s: Sync)
    requires Slotted(s)
    ensures Slotted(StopAccepting(s)) && StopAccepting(s).workers.Keys == s.workers.Keys
  {
    if s.accepting {
      DenyAllFacts(s.workers, s.waiters);
      hide Holders, Blocked;
      assert multiset(s.answered + s.waiters) == multiset(s.answered) + multiset(s.waiters);
    }
  }

  /** Every step keeps the slots in order. */
  lemma ApplySlotted(s: Sync, step: Step)
    requires Slotted(s)
    ensures Slotted(Apply(s, step))
  {
    hide Slotted, StartWorker, Answered, Continued, StopAccepting, Merge;
    match step
    case Ask(a, deferred, fails) =>
      if s.accepting {
        var asked := s.(pending := Merge(s.pending, a, !deferred, deferred, 0),
                        live := if deferred then s.live else s.live + {a}, retries := s.retries - {a});
        SameSlots(s, asked);
        StartWorkerKeeps(asked, a, fails);
      }
    case Resume(a, fails) => if a in s.workers { ContinuedKeeps(s, a, fails); }
    case Reply(a, answer) => if a in s.workers && s.workers[a].phase.Calling? { AnsweredKeeps(s, a, answer); }
    case Fire(a, timer, fails) =>
      var fired := s.(retries := s.retries - {a});
      SameSlots(s, fired);
      StartWorkerKeeps(fired, a, fails);
    case Stop => StopKeeps(s);
  }

  // ---------------------------------------------------------------- requests

  /** Only slots and phases change, and nobody is refused. */
  ghost predicate SlotMove(s: Sync, t: Sync) {
    && t == s.(workers := t.workers, waiters := t.waiters, active := t.active, asked := t.asked, answered := t.answered)
    && t.workers.Keys == s.workers.Keys
    && forall a :: a in s.workers ==>
         && t.workers[a].request == s.workers[a].request
         && (t.workers[a].phase.Denied? ==> s.workers[a].phase.Denied? || !s.accepting)
  }

  lemma SetPhaseMoves(s: Sync, a: string, phase: Phase)
    requires phase.Denied? ==> !s.accepting
    ensures SlotMove(s, s.(workers := SetPhase(s.workers, a, phase)))
  {}

  lemma SlotMoveTwice(s: Sync, t: Sync, u: Sync)
    requires SlotMove(s, t) && SlotMove(t, u)
    ensures SlotMove(s, u)
  {}

  lemma AcquireMoves(s: Sync, a: string, page: nat)
    ensures SlotMove(s, AcquireSlot(s, a, page))
  {}

  lemma ReleaseMoves(s: Sync)
    requires s.waiters != [] ==> s.accepting
    ensures SlotMove(s, ReleaseSlot(s))
  {}

  lemma LeaveMoves(s: Sync, a: string, outcome: Outcome)
    requires s.waiters != [] ==> s.accepting
    ensures SlotMove(s, LeaveSlot(s, a, outcome))
  {
    SetPhaseMoves(s, a, Drained(outcome));
    hide SlotMove, SetPhase, ReleaseSlot;
    ReleaseMoves(s.(workers := SetPhase(s.workers, a, Drained(outcome))));
    SlotMoveTwice(s, s.(workers := SetPhase(s.workers, a, Drained(outcome))), LeaveSlot(s, a, outcome));
  }

  lemma MoveKeepsRequests(s: Sync, t: Sync)
    requires SlotMove(s, t) && RequestsOk(s)
    ensures RequestsOk(t)
  {}

  lemma BeginKeepsRequests(s: Sync, a: string, request: Request, fails: bool)
    requires RequestsOk(s) && a in s.workers
    ensures RequestsOk(BeginDrain(s, a, request, fails))
  {
    var started := s.(workers := s.workers[a := Worker(request, Drained(Threw))]);
    assert RequestsOk(started);
    AcquireMoves(started, a, 0);
    hide RequestsOk, SlotMove, AcquireSlot;
    if !fails { MoveKeepsRequests(started, AcquireSlot(started, a, 0)); }
  }

  lemma TakeKeepsRequests(s: Sync, a: string, fails: bool)
    requires RequestsOk(s) && a in s.workers
    ensures RequestsOk(TakeNext(s, a, fails))
  {
    if !s.accepting || a !in s.pending {
      SetPhaseMoves(s, a, Ended);
      MoveKeepsRequests(s, s.(workers := SetPhase(s.workers, a, Ended)));
    } else {
      var request := s.pending[a];
      var taken := s.(pending := s.pending - {a}, live := if request.live then s.live - {a} else s.live);
      assert RequestsOk(taken);
      hide RequestsOk, BeginDrain;
      BeginKeepsRequests(taken, a, request, fails);
    }
  }

  /** Starting a worker makes good for a request that has neither worker nor timer. */
  lemma StartKeepsRequests(s: Sync, a: string, fails: bool)
    requires RequestsOk(s.(retries := s.retries[a := 0]))
    ensures RequestsOk(StartWorker(s, a, fails))
  {
    if a !in s.workers {
      var started := s.(workers := s.workers[a := Worker(NO_REQUEST, Ended)]);
      assert RequestsOk(started);
      hide RequestsOk, TakeNext;
      TakeKeepsRequests(started, a, fails);
    }
  }

  lemma AskKeepsRequests(s: Sync, a: string, deferred: bool, fails: bool)
    requires RequestsOk(s)
    ensures RequestsOk(RequestSync(s, a, deferred, fails))
  {
    if s.accepting {
      var asked := s.(pending := Merge(s.pending, a, !deferred, deferred, 0),
                      live := if deferred then s.live else s.live + {a}, retries := s.retries - {a});
      assert RequestsOk(asked.(retries := asked.retries[a := 0]));
      hide RequestsOk, StartWorker;
      StartKeepsRequests(asked, a, fails);
    }
  }

  lemma RetryKeepsRequests(s: Sync, a: string, request: Request)
    requires RequestsOk(s)
    ensures RequestsOk(RetryLater(s, a, request))
  {}

  lemma EndKeepsRequests(s: Sync, a: string, fails: bool)
    requires RequestsOk(s) && a in s.workers && s.workers[a].phase.Ended?
    ensures RequestsOk(Continued(s, a, fails))
  {
    var gone := s.(workers := s.workers - {a});
    if s.accepting && a in s.pending && a !in s.retries {
      assert RequestsOk(gone.(retries := gone.retries[a := 0]));
      hide RequestsOk, StartWorker;
      StartKeepsRequests(gone, a, fails);
    }
  }

  lemma ContinuedKeepsRequests(s: Sync, a: string, fails: bool)
    requires RequestsOk(s) && a in s.workers && (s.waiters != [] ==> s.accepting)
    ensures RequestsOk(Continued(s, a, fails))
  {
    var phase := s.workers[a].phase;
    if phase.Ended? {
      EndKeepsRequests(s, a, fails);
    } else if phase.Drained? && phase.outcome == Threw && s.accepting {
      RetryKeepsRequests(s, a, s.workers[a].request);
    } else if phase.Drained? && phase.outcome != Threw {
      TakeKeepsRequests(s, a, fails);
    } else {
      hide RequestsOk, SlotMove, SetPhase, LeaveSlot;
      if phase.Granted? { SetPhaseMoves(s, a, Calling(phase.page)); }
      SetPhaseMoves(s, a, Drained(Stopped));
      SetPhaseMoves(s, a, Ended);
      LeaveMoves(s, a, Stopped);
      if Continued(s, a, fails) != s { MoveKeepsRequests(s, Continued(s, a, fails)); }
    }
  }

  lemma AnsweredMoves(s: Sync, a: string, answer: Answer)
    requires a in s.workers && s.workers[a].phase.Calling? && (s.waiters != [] ==> s.accepting)
    ensures SlotMove(s, Answered(s, a, answer))
  {
    hide SlotMove, LeaveSlot, AcquireSlot;
    LeaveMoves(s, a, Completed);
    LeaveMoves(s, a, Stopped);
    LeaveMoves(s, a, Threw);
    AcquireMoves(LeaveSlot(s, a, Completed), a, s.workers[a].phase.page + 1);
    SlotMoveTwice(s, LeaveSlot(s, a, Completed),
      AcquireSlot(LeaveSlot(s, a, Completed), a, s.workers[a].phase.page + 1));
  }

  lemma FireKeepsRequests(s: Sync, a: string, timer: nat, fails: bool)
    requires RequestsOk(s)
    ensures RequestsOk(Fired(s, a, timer, fails))
  {
    var fired := s.(retries := s.retries - {a});
    assert RequestsOk(fired.(retries := fired.retries[a := 0]));
    if !s.accepting { assert RequestsOk(fired); }
    hide RequestsOk, StartWorker;
    StartKeepsRequests(fired, a, fails);
  }

  /** Every step keeps the invariant. */
  lemma ApplyKeeps(s: Sync, step: Step)
    requires Inv(s)
    ensures Inv(Apply(s, step))
  {
    ApplySlotted(s, step);
    hide SlotsOk, PagesOk, RequestsOk, RequestSync, Continued, Answered, Fired;
    match step
    case Ask(a, deferred, fails) => AskKeepsRequests(s, a, deferred, fails);
    case Resume(a, fails) => if a in s.workers { ContinuedKeepsRequests(s, a, fails); }
    case Reply(a, answer) =>
      if a in s.workers && s.workers[a].phase.Calling? {
        hide SlotMove;
        AnsweredMoves(s, a, answer);
        MoveKeepsRequests(s, Answered(s, a, answer));
      }
    case Fire(a, timer, fails) => FireKeepsRequests(s, a, timer, fails);
    case Stop => StopRequests(s);
  }

  lemma StopRequests(s: Sync)
    ensures RequestsOk(s) ==> RequestsOk(StopAccepting(s))
  {}

  lemma {:induction false} RunKeeps(s: Sync, steps: seq<Step>)
    requires Inv(s)
    ensures Inv(Run(s, steps))
    decreases |steps|
  {
    hide Inv, Apply;
    if steps != [] {
      ApplyKeeps(s, steps[0]);
      RunKeeps(Apply(s, steps[0]), steps[1..]);
    }
  }

  lemma FreshInv()
    ensures Inv(FRESH)
  {}

  /**
   In every reachable state: no request is lost, a live request is pending as a live one, the active
   count is the number of slot holders and at most four, waiters exist only while all slots are held,
   every waiter was answered once or still waits, and no drain goes beyond its hundredth page.
   */
  lemma SyncSafety(steps: seq<Step>)
    ensures var s := Run(FRESH, steps);
      && (s.accepting ==> forall a :: a in s.pending ==> a in s.workers || a in s.retries)
      && (s.accepting ==> forall a :: a in s.live ==> a in s.pending && s.pending[a].live)
      && s.active == |Holders(s.workers)| && s.active <= 4
      && (s.waiters != [] ==> s.accepting && s.active == 4)
      && (forall a :: a in s.waiters <==> a in s.workers && s.workers[a].phase.Waiting?)
      && multiset(s.asked) == multiset(s.answered) + multiset(s.waiters)
      && (forall a :: a in s.workers && s.workers[a].phase.Calling? ==> s.workers[a].phase.page < 100)
  {
    FreshInv();
    RunKeeps(FRESH, steps);
    hide Run;
    assert forall a :: a in Blocked(Run(FRESH, steps).workers) <==>
      a in Run(FRESH, steps).workers && Run(FRESH, steps).workers[a].phase.Waiting?;
    hide Holders, Blocked, Distinct;
  }

  // ---------------------------------------------------------------- no lost request

  /** The worker still has its request on its hands. */
  predicate Busy(p: Phase) { p.Waiting? || p.Granted? || p.Calling? || p == Drained(Threw) }

  /** A request for the account, or with `live` a live one, is still to be served. */
  predicate Owed(s: Sync, b: string, live: bool) {
    || (b in s.pending && (live ==> s.pending[b].live))
    || (b in s.workers && Busy(s.workers[b].phase) && (live ==> s.workers[b].request.live))
  }

  /** The step ends a drain of the account, or with `live` one for a live request, after its last page. */
  predicate Serves(s: Sync, step: Step, b: string, live: bool) {
    && step == Reply(b, Last) && b in s.workers && s.workers[b].phase.Calling?
    && !(IsDeferred(s.workers[b].request) && b in s.live) && (live ==> s.workers[b].request.live)
  }

  /** What is owed to an account whose own worker does not move stays owed. */
  ghost predicate KeepsOwed(s: Sync, t: Sync, b: string) {
    forall live :: Owed(s, b, live) ==> Owed(t, b, live)
  }

  lemma AcquireKeepsOwed(s: Sync, a: string, page: nat, b: string)
    requires s.accepting
    ensures KeepsOwed(s, AcquireSlot(s, a, page), b)
    ensures a in s.workers ==> Busy(AcquireSlot(s, a, page).workers[a].phase)
    ensures a in s.workers ==> AcquireSlot(s, a, page).workers[a].request == s.workers[a].request
  {}

  lemma LeaveKeepsOwed(s: Sync, a: string, outcome: Outcome, b: string)
    requires s.accepting && (a != b || outcome == Threw)
    ensures KeepsOwed(s, LeaveSlot(s, a, outcome), b)
  {}

  lemma LeavePending(s: Sync, a: string, outcome: Outcome)
    requires s.accepting && a !in s.waiters
    ensures LeaveSlot(s, a, outcome).pending == s.pending && LeaveSlot(s, a, outcome).accepting
    ensures LeaveSlot(s, a, outcome).workers.Keys == s.workers.Keys
    ensures a in s.workers ==> LeaveSlot(s, a, outcome).workers[a].request == s.workers[a].request
  {}

  lemma BeginOwes(s: Sync, a: string, request: Request, fails: bool, b: string)
    requires s.accepting
    ensures var t := BeginDrain(s, a, request, fails);
      && (b != a ==> KeepsOwed(s, t, b))
      && a in t.workers && Busy(t.workers[a].phase) && t.workers[a].request == request && t.pending == s.pending
  {
    var started := s.(workers := s.workers[a := Worker(request, Drained(Threw))]);
    AcquireKeepsOwed(started, a, 0, b);
  }

  lemma TakeOwes(s: Sync, a: string, fails: bool, b: string)
    requires s.accepting && (a in s.workers ==> !Busy(s.workers[a].phase))
    ensures KeepsOwed(s, TakeNext(s, a, fails), b)
  {
    if a in s.pending {
      var request := s.pending[a];
      var taken := s.(pending := s.pending - {a}, live := if request.live then s.live - {a} else s.live);
      BeginOwes(taken, a, request, fails, b);
      hide BeginDrain;
    }
  }

  lemma StartOwes(s: Sync, a: string, fails: bool, b: string)
    requires s.accepting
    ensures KeepsOwed(s, StartWorker(s, a, fails), b)
  {
    if a !in s.workers {
      var started := s.(workers := s.workers[a := Worker(NO_REQUEST, Ended)]);
      TakeOwes(started, a, fails, b);
      hide TakeNext;
    }
  }

  lemma AskOwes(s: Sync, a: string, deferred: bool, fails: bool, b: string)
    requires s.accepting
    ensures KeepsOwed(s, RequestSync(s, a, deferred, fails), b)
    ensures Owed(RequestSync(s, a, deferred, fails), a, !deferred)
  {
    var asked := s.(pending := Merge(s.pending, a, !deferred, deferred, 0),
                    live := if deferred then s.live else s.live + {a}, retries := s.retries - {a});
    assert KeepsOwed(s, asked, b) && Owed(asked, a, !deferred);
    StartOwes(asked, a, fails, b);
    StartOwes(asked, a, fails, a);
    hide StartWorker, Owed;
  }

  lemma EndOwes(s: Sync, a: string, fails: bool, b: string)
    requires s.accepting && a in s.workers && s.workers[a].phase.Ended?
    ensures KeepsOwed(s, Continued(s, a, fails), b)
  {
    var gone := s.(workers := s.workers - {a});
    assert KeepsOwed(s, gone, b);
    StartOwes(gone, a, fails, b);
    hide StartWorker, Owed;
  }

  lemma ResumeOwes(s: Sync, a: string, fails: bool, b: string)
    requires s.accepting && a in s.workers && !s.workers[a].phase.Denied?
    ensures KeepsOwed(s, Continued(s, a, fails), b)
  {
    var phase := s.workers[a].phase;
    if phase.Ended? {
      EndOwes(s, a, fails, b);
    } else if phase.Drained? && phase.outcome != Threw {
      TakeOwes(s, a, fails, b);
    }
    hide StartWorker, TakeNext, LeaveSlot;
  }

  lemma AnotherPageOwes(s: Sync, a: string, page: nat, b: string, live: bool)
    requires s.accepting && a !in s.waiters && a in s.workers && Busy(s.workers[a].phase) && Owed(s, b, live)
    ensures Owed(AcquireSlot(LeaveSlot(s, a, Completed), a, page), b, live)
  {
    var left := LeaveSlot(s, a, Completed);
    LeavePending(s, a, Completed);
    AcquireElsewhere(left, a, page);
    AcquireKeepsOwed(left, a, page, b);
    if a != b { LeaveKeepsOwed(s, a, Completed, b); }
    hide LeaveSlot, AcquireSlot, Busy;
  }

  /** The reply does not touch what is pending. */
  lemma PendingStays(s: Sync, a: string, outcome: Outcome, b: string, live: bool)
    requires s.accepting && a !in s.waiters && (b in s.pending && (live ==> s.pending[b].live))
    ensures Owed(LeaveSlot(s, a, outcome), b, live)
  {
    LeavePending(s, a, outcome);
    hide LeaveSlot;
  }

  lemma ReplyOwes(s: Sync, a: string, answer: Answer, b: string, live: bool)
    requires Inv(s) && s.accepting && a in s.workers && s.workers[a].phase.Calling?
    requires Owed(s, b, live) && !Serves(s, Reply(a, answer), b, live)
    ensures Owed(Answered(s, a, answer), b, live)
  {
    assert a !in s.waiters by { hide RequestsOk, PagesOk; assert a !in Blocked(s.workers); }
    assert a in s.live ==> a in s.pending && s.pending[a].live by { hide SlotsOk, PagesOk; }
    var page := s.workers[a].phase.page + 1;
    hide Inv, LeaveSlot, AcquireSlot;
    LeaveKeepsOwed(s, a, Threw, b);
    AnotherPageOwes(s, a, page, b, live);
    if a != b {
      LeaveKeepsOwed(s, a, Stopped, b);
      LeaveKeepsOwed(s, a, Completed, b);
    } else if b in s.pending && (live ==> s.pending[b].live) {
      PendingStays(s, a, Stopped, b, live);
      PendingStays(s, a, Completed, b, live);
    }
  }

  lemma AcquireElsewhere(s: Sync, a: string, page: nat)
    ensures AcquireSlot(s, a, page).pending == s.pending && AcquireSlot(s, a, page).workers.Keys == s.workers.Keys
  {}

  /** One step never drops what is owed, unless it serves it. */
  lemma StepOwes(s: Sync, step: Step, b: string, live: bool)
    requires Inv(s) && s.accepting && step != Stop && Owed(s, b, live) && !Serves(s, step, b, live)
    ensures Owed(Apply(s, step), b, live) && Apply(s, step).accepting
  {
    assert forall a :: a in s.workers ==> !s.workers[a].phase.Denied? by { hide SlotsOk, PagesOk; }
    AcceptingStays(s, step);
    hide Inv, RequestSync, Continued, Answered, StartWorker;
    match step
    case Ask(a, deferred, fails) => AskOwes(s, a, deferred, fails, b);
    case Resume(a, fails) => if a in s.workers { ResumeOwes(s, a, fails, b); }
    case Reply(a, answer) => if a in s.workers && s.workers[a].phase.Calling? { ReplyOwes(s, a, answer, b, live); }
    case Fire(a, timer, fails) => StartOwes(s.(retries := s.retries - {a}), a, fails, b);
  }

  lemma AcceptingStays(s: Sync, step: Step)
    ensures step != Stop ==> Apply(s, step).accepting == s.accepting
  {}

  /** The request is on the books: pending, or with `taken` in the hands of the drain under way. */
  predicate InHand(s: Sync, b: string, live: bool, taken: bool) {
    if taken then b in s.workers && Busy(s.workers[b].phase) && (live ==> s.workers[b].request.live)
    else b in s.pending && (live ==> s.pending[b].live)
  }

  /** Whether a drain has the request in its hands after a step: a drain that took it, and has not failed since. */
  predicate Taken(s: Sync, step: Step, b: string, live: bool, taken: bool) {
    if taken then InHand(Apply(s, step), b, live, true) else !InHand(Apply(s, step), b, live, false)
  }

  /** A drain that took the request, and so began after it was made, fetches its last page. */
  ghost predicate ServedIn(s: Sync, steps: seq<Step>, b: string, live: bool, taken: bool)
    decreases |steps|
  {
    steps != [] &&
      ((taken && Serves(s, steps[0], b, live))
       || ServedIn(Apply(s, steps[0]), steps[1..], b, live, Taken(s, steps[0], b, live, taken)))
  }

  lemma ReplyKeepsPending(s: Sync, step: Step)
    requires Inv(s) && step.Reply?
    ensures Apply(s, step).pending == s.pending
  {
    hide SlotsOk, PagesOk, RequestsOk, Answered, SlotMove;
    if step.a in s.workers && s.workers[step.a].phase.Calling? {
      AnsweredMoves(s, step.a, step.answer);
      MovePending(s, Answered(s, step.a, step.answer));
    }
  }

  lemma MovePending(s: Sync, t: Sync)
    requires SlotMove(s, t)
    ensures t.pending == s.pending
  {}

  /** One step hands the request on: to a drain that takes it, or back when that drain fails. */
  lemma StepHandsOn(s: Sync, step: Step, b: string, live: bool, taken: bool)
    requires Inv(s) && s.accepting && step != Stop && InHand(s, b, live, taken) && !(taken && Serves(s, step, b, live))
    ensures InHand(Apply(s, step), b, live, Taken(s, step, b, live, taken))
  {
    if Serves(s, step, b, live) {
      ReplyKeepsPending(s, step);
    } else {
      StepOwes(s, step, b, live);
    }
    hide Inv, Apply;
  }

  /**
   No request is lost: until the service stops, a request stays on the books, with a worker or a timer
   to serve it, until a drain that took it has fetched its last page. A drain that was under way when the
   request was made does not count, and a live request is only taken by a drain that is not deferred.
   */
  lemma {:induction false} NoLostRequest(s: Sync, steps: seq<Step>, b: string, live: bool, taken: bool)
    requires Inv(s) && s.accepting && InHand(s, b, live, taken)
    requires Stop !in steps && !ServedIn(s, steps, b, live, taken)
    ensures var t := Run(s, steps);
      && (InHand(t, b, live, true) || InHand(t, b, live, false))
      && (b in t.workers || b in t.retries)
    decreases |steps|
  {
    if steps == [] {
      assert b in s.workers || b in s.retries by { hide SlotsOk, PagesOk; }
    } else {
      StepHandsOn(s, steps[0], b, live, taken);
      ApplyKeeps(s, steps[0]);
      AcceptingStays(s, steps[0]);
      hide Inv, Apply, InHand, Taken, Serves;
      assert steps[0] in steps && Stop !in steps[1..];
      NoLostRequest(Apply(s, steps[0]), steps[1..], b, live, Taken(s, steps[0], b, live, taken));
    }
  }

  /** A request is on the books as soon as it is made: while a drain is under way it waits for the next one. */
  lemma RequestIsBooked(s: Sync, b: string, deferred: bool, fails: bool)
    requires s.accepting
    ensures var t := Apply(s, Ask(b, deferred, fails));
      InHand(t, b, !deferred, b !in s.workers)
  {
    if b in s.workers {
      hide AcquireSlot;
    } else {
      var asked := s.(pending := Merge(s.pending, b, !deferred, deferred, 0),
                      live := if deferred then s.live else s.live + {b}, retries := s.retries - {b});
      var started := asked.(workers := asked.workers[b := Worker(NO_REQUEST, Ended)]);
      var request := started.pending[b];
      BeginOwes(
        started.(pending := started.pending - {b}, live := if request.live then started.live - {b} else started.live),
                b, request, fails, b);
      hide BeginDrain;
    }
  }

  // ---------------------------------------------------------------- order of service

  /** The step gives a slot back. */
  predicate Releases(s: Sync, step: Step) {
    step.Reply? && step.a in s.workers && s.workers[step.a].phase.Calling?
  }

  function Released(s: Sync, steps: seq<Step>): nat
    decreases |steps|
  {
    if steps == [] then 0 else (if Releases(s, steps[0]) then 1 else 0) + Released(Apply(s, steps[0]), steps[1..])
  }

  /** A step takes the first waiter if it gives a slot back; others are added behind. */
  ghost predicate Serving(s: Sync, t: Sync, releases: bool) {
    var rest := if releases && s.waiters != [] then s.waiters[1..] else s.waiters;
    && rest <= t.waiters
    && (releases && s.waiters != [] && s.waiters[0] in s.workers ==>
          s.waiters[0] in t.workers && t.workers[s.waiters[0]].phase.Granted?)
  }

  lemma TakeServes(s: Sync, a: string, fails: bool)
    ensures s.waiters <= TakeNext(s, a, fails).waiters
  {}

  lemma StartServes(s: Sync, a: string, fails: bool)
    ensures s.waiters <= StartWorker(s, a, fails).waiters
  {
    hide TakeNext;
    TakeServes(s.(workers := s.workers[a := Worker(NO_REQUEST, Ended)]), a, fails);
  }

  lemma LeaveServes(s: Sync, a: string, outcome: Outcome)
    requires s.accepting
    ensures Serving(s, LeaveSlot(s, a, outcome), true)
  {}

  lemma ReplyServes(s: Sync, a: string, answer: Answer)
    requires Inv(s) && s.accepting && a in s.workers && s.workers[a].phase.Calling?
    ensures Serving(s, Answered(s, a, answer), true)
  {
    LeaveServes(s, a, Threw);
    LeaveServes(s, a, Stopped);
    LeaveServes(s, a, Completed);
    if s.waiters != [] {
      assert s.waiters[0] in s.waiters && s.waiters[0] in Blocked(s.workers) by { hide RequestsOk, PagesOk; }
    }
    hide Inv, LeaveSlot;
  }

  lemma StepServes(s: Sync, step: Step)
    requires Inv(s) && s.accepting && step != Stop
    ensures Serving(s, Apply(s, step), Releases(s, step))
  {
    hide Inv, Answered, StartWorker, TakeNext, LeaveSlot;
    match step
    case Ask(a, deferred, fails) =>
      StartServes(s.(pending := Merge(s.pending, a, !deferred, deferred, 0),
                     live := if deferred then s.live else s.live + {a}, retries := s.retries - {a}), a, fails);
    case Resume(a, fails) =>
      if a in s.workers {
        TakeServes(s, a, fails);
        StartServes(s.(workers := s.workers - {a}), a, fails);
      }
    case Reply(a, answer) => if a in s.workers && s.workers[a].phase.Calling? { ReplyServes(s, a, answer); }
    case Fire(a, timer, fails) => StartServes(s.(retries := s.retries - {a}), a, fails);
  }

  /**
    * Slots go to waiters first come, first served: the one at position `i` gets the slot that is
    * given back next after `i` others.
    */
  lemma {:induction false} FirstComeFirstServed(s: Sync, steps: seq<Step>, last: Step, i: nat)
    requires Inv(s) && s.accepting && Stop !in steps && last != Stop
    requires i < |s.waiters| && Released(s, steps) == i && Releases(Run(s, steps), last)
    ensures var t := Apply(Run(s, steps), last);
      s.waiters[i] in t.workers && t.workers[s.waiters[i]].phase.Granted?
    decreases |steps|
  {
    if steps == [] {
      StepServes(s, last);
      assert s.waiters[0] in s.waiters && s.waiters[0] in Blocked(s.workers) by { hide RequestsOk, PagesOk; }
      hide Inv, Apply;
    } else {
      var next := Apply(s, steps[0]);
      StepServes(s, steps[0]);
      ApplyKeeps(s, steps[0]);
      assert steps[0] in steps && Stop !in steps[1..];
      AcceptingStays(s, steps[0]);
      hide Inv, Apply, Releases;
      var j := if Releases(s, steps[0]) then i - 1 else i;
      assert next.waiters[j] == s.waiters[i];
      FirstComeFirstServed(next, steps[1..], last, j);
    }
  }

  lemma StepStartsNoCall(s: Sync, step: Step, a: string)
    requires !s.accepting && s.waiters == []
    requires a in Apply(s, step).workers && Apply(s, step).workers[a].phase.Calling?
    ensures a in s.workers && s.workers[a].phase.Calling?
  {}

  /** After the stop no worker ever starts another provider call: those under way only end. */
  lemma {:induction false} NoCallAfterStop(s: Sync, steps: seq<Step>, a: string)
    requires Inv(s) && !s.accepting
    requires a in Run(s, steps).workers && Run(s, steps).workers[a].phase.Calling?
    ensures !Run(s, steps).accepting && a in s.workers && s.workers[a].phase.Calling?
    decreases |steps|
  {
    if steps != [] {
      var next := Apply(s, steps[0]);
      ApplyKeeps(s, steps[0]);
      AcceptingStays(s, steps[0]);
      assert s.waiters == [] by { hide SlotsOk, PagesOk, RequestsOk; }
      assert !next.accepting by { if steps[0] == Stop {} }
      hide Inv;
      NoCallAfterStop(next, steps[1..], a);
      StepStartsNoCall(s, steps[0], a);
    }
  }

  // ---------------------------------------------------------------- timers

  /** A step sets only new timers. */
  ghost predicate NewTimers(s: Sync, t: Sync) {
    s.nextTimer <= t.nextTimer
    && forall a :: a in t.retries ==>
          (a in s.retries && t.retries[a] == s.retries[a]) || s.nextTimer <= t.retries[a] < t.nextTimer
  }

  lemma TakeTimers(s: Sync, a: string, fails: bool)
    ensures TakeNext(s, a, fails).retries == s.retries && TakeNext(s, a, fails).nextTimer == s.nextTimer
  {}

  lemma StartTimers(s: Sync, a: string, fails: bool)
    ensures StartWorker(s, a, fails).retries == s.retries && StartWorker(s, a, fails).nextTimer == s.nextTimer
  {
    TakeTimers(s.(workers := s.workers[a := Worker(NO_REQUEST, Ended)]), a, fails);
    hide TakeNext;
  }

  lemma StepTimers(s: Sync, step: Step)
    ensures NewTimers(s, Apply(s, step))
  {
    hide StartWorker, TakeNext, LeaveSlot, AcquireSlot;
    match step
    case Ask(a, deferred, fails) =>
      StartTimers(s.(pending := Merge(s.pending, a, !deferred, deferred, 0),
                     live := if deferred then s.live else s.live + {a}, retries := s.retries - {a}), a, fails);
    case Resume(a, fails) =>
      TakeTimers(s, a, fails);
      StartTimers(s.(workers := s.workers - {a}), a, fails);
      LeaveTimers(s, a, Stopped);
    case Reply(a, answer) =>
      LeaveTimers(s, a, Completed);
      LeaveTimers(s, a, Stopped);
      LeaveTimers(s, a, Threw);
      if a in s.workers && s.workers[a].phase.Calling? {
        AcquireTimers(LeaveSlot(s, a, Completed), a, s.workers[a].phase.page + 1);
      }
    case Fire(a, timer, fails) => StartTimers(s.(retries := s.retries - {a}), a, fails);
    case Stop =>
  }

  lemma LeaveTimers(s: Sync, a: string, outcome: Outcome)
    ensures LeaveSlot(s, a, outcome).retries == s.retries && LeaveSlot(s, a, outcome).nextTimer == s.nextTimer
  {}

  lemma AcquireTimers(s: Sync, a: string, page: nat)
    ensures AcquireSlot(s, a, page).retries == s.retries && AcquireSlot(s, a, page).nextTimer == s.nextTimer
  {}

  /** A timer that has fired, or was cancelled or replaced, never does anything again. */
  lemma {:induction false} TimerFiresOnce(s: Sync, steps: seq<Step>, a: string, timer: nat, fails: bool)
    requires timer < s.nextTimer && !(a in s.retries && s.retries[a] == timer)
    ensures Apply(Run(s, steps), Fire(a, timer, fails)) == Run(s, steps)
    decreases |steps|
  {
    if steps != [] {
      StepTimers(s, steps[0]);
      hide Apply;
      TimerFiresOnce(Apply(s, steps[0]), steps[1..], a, timer, fails);
    }
  }

  // ---------------------------------------------------------------- the service

  /** The maps, sets and counters of the service; a worker's entry also says where it is suspended. */
  class SyncService {
    var accepting: bool
    var workers: map<string, Worker>
    var pending: map<string, Request>
    var live: set<string>
    var retries: map<string, nat>
    var nextTimer: nat
    var waiters: seq<string>
    var active: int
    ghost var asked: seq<string>
    ghost var answered: seq<string>

    constructor ()
      ensures State() == FRESH
    {
      accepting, workers, pending, live, retries, nextTimer := true, map[], map[], {}, map[], 0;
      waiters, active, asked, answered := [], 0, [], [];
    }

    ghost function State(): Sync
      reads this
    {
      Sync(accepting, workers, pending, live, retries, nextTimer, waiters, active, asked, answered)
    }

    /** `#acquireSyncSlot`, awaited by the worker of `a`. */
    method AcquireSyncSlot(a: string, page: nat)
      modifies this`active, this`waiters, this`asked, this`workers
      ensures State() == AcquireSlot(old(State()), a, page)
      ensures old(Slotted(State()) && a in workers && Neutral(workers[a].phase)) && page < MAX_SYNC_PAGES ==>
        Slotted(State())
    {
      ghost var before := State();
      if Slotted(before) && a in workers && Neutral(workers[a].phase) && page < MAX_SYNC_PAGES {
        AcquireKeeps(before, a, page);
      }
      hide Slotted;
      if !accepting {
        workers := SetPhase(workers, a, Denied);
      } else if active < MAX_CONCURRENT {
        active := active + 1;
        workers := SetPhase(workers, a, Granted(page));
      } else {
        waiters, asked := waiters + [a], asked + [a];
        workers := SetPhase(workers, a, Waiting(page));
      }
    }

    /** `#releaseSyncSlot`: hand the slot to the first waiter, or refuse every waiter after the stop. */
    method ReleaseSyncSlot()
      modifies this`active, this`waiters, this`answered, this`workers
      ensures State() == ReleaseSlot(old(State()))
    {
      active := active - 1;
      ghost var before, all, n := workers, waiters, 0;
      while waiters != []
        invariant 0 <= n <= |all| && waiters == all[n..] && answered == old(answered) + all[..n]
        invariant active == old(active) - 1 && (accepting ==> n == 0 && workers == before)
        invariant !accepting ==> DenyAll(workers, waiters) == DenyAll(before, all)
        decreases |waiters|
      {
        var a := waiters[0];
        assert all[n..][1..] == all[n + 1..] && all[..n + 1] == all[..n] + [all[n]];
        waiters, answered := waiters[1..], answered + [a];
        n := n + 1;
        if !accepting {
          workers := SetPhase(workers, a, Denied);
          continue;
        }
        active := active + 1;
        workers := SetPhase(workers, a, Granted(PageOf(workers, a)));
        return;
      }
      assert all[..n] == all;
    }

    /** Refuse every waiter, in order. */
    method RefuseWaiters()
      modifies this`waiters, this`answered, this`workers
      ensures waiters == [] && answered == old(answered) + old(waiters)
      ensures workers == DenyAll(old(workers), old(waiters))
    {
      ghost var all, n := waiters, 0;
      while waiters != []
        invariant 0 <= n <= |all| && waiters == all[n..] && answered == old(answered) + all[..n]
        invariant DenyAll(workers, waiters) == DenyAll(old(workers), all)
        decreases |waiters|
      {
        var a := waiters[0];
        assert all[n..][1..] == all[n + 1..] && all[..n + 1] == all[..n] + [all[n]];
        waiters, answered := waiters[1..], answered + [a];
        workers := SetPhase(workers, a, Denied);
        n := n + 1;
      }
      assert all[..n] == all;
    }

    /** The head of the loop of `#runWorker`, up to the first await of the drain. */
    method RunWorker(a: string, fails: bool)
      modifies this`active, this`waiters, this`asked, this`workers, this`pending, this`live
      ensures State() == TakeNext(old(State()), a, fails)
    {
      if !accepting || a !in pending {
        workers := SetPhase(workers, a, Ended);
        return;
      }
      var request := pending[a];
      pending := pending - {a};
      if request.live { live := live - {a}; }
      workers := workers[a := Worker(request, Drained(Threw))];
      if !fails { AcquireSyncSlot(a, 0); }
    }

    /** `#startWorker`. */
    method BeginWorker(a: string, fails: bool)
      modifies this`active, this`waiters, this`asked, this`workers, this`pending, this`live
      ensures State() == StartWorker(old(State()), a, fails)
    {
      if a in workers { return; }
      workers := workers[a := Worker(NO_REQUEST, Ended)];
      RunWorker(a, fails);
    }

    /** `enqueue` and `catchUp`, by `#requestSync`. */
    method Enqueue(a: string, deferred: bool, fails: bool)
      modifies this
      ensures State() == RequestSync(old(State()), a, deferred, fails)
    {
      if !accepting { return; }
      hide StartWorker;
      pending := Merge(pending, a, !deferred, deferred, 0);
      if !deferred { live := live + {a}; }
      retries := retries - {a};
      BeginWorker(a, fails);
    }

    /** The provider call of `a` ends. */
    method FinishCall(a: string, answer: Answer)
      requires a in workers && workers[a].phase.Calling?
      modifies this
      ensures State() == Answered(old(State()), a, answer)
    {
      hide ReleaseSlot, AcquireSlot;
      var w := workers[a];
      var interrupted := IsDeferred(w.request) && a in live;
      var outcome :=
        if answer == Failed then Threw
        else if !accepting then Stopped
        else if answer == Invalid then Threw
        else if interrupted then Stopped
        else if answer == Last || w.phase.page + 1 < MAX_SYNC_PAGES then Completed
        else Threw;
      workers := SetPhase(workers, a, Drained(outcome));
      var another := accepting && answer == More && !interrupted && w.phase.page + 1 < MAX_SYNC_PAGES;
      ReleaseSyncSlot();
      if another { AcquireSyncSlot(a, w.phase.page + 1); }
    }

    /** The worker of `a` resumes after an await, or its `finally` runs. */
    method ResumeWorker(a: string, fails: bool)
      requires a in workers
      modifies this
      ensures State() == Continued(old(State()), a, fails)
    {
      hide ReleaseSlot, AcquireSlot, BeginDrain, StartWorker, Merge;
      var w := workers[a];
      match w.phase {
        case Granted(page) =>
          if accepting {
            workers := SetPhase(workers, a, Calling(page));
          } else {
            workers := SetPhase(workers, a, Drained(Stopped));
            ReleaseSyncSlot();
          }
        case Denied => workers := SetPhase(workers, a, Drained(Stopped));
        case Drained(outcome) =>
          if outcome != Threw {
            RunWorker(a, fails);
          } else {
            if accepting {
              pending := Merge(pending, a, w.request.live, w.request.deferred, w.request.attempt + 1);
              retries, nextTimer := retries[a := nextTimer], nextTimer + 1;
            }
            workers := SetPhase(workers, a, Ended);
          }
        case Ended =>
          workers := workers - {a};
          if accepting && a in pending && a !in retries { BeginWorker(a, fails); }
        case Waiting(_) =>
        case Calling(_) =>
      }
    }

    /** The callback of a retry timer. */
    method FireTimer(a: string, timer: nat, fails: bool)
      modifies this
      ensures State() == Fired(old(State()), a, timer, fails)
      ensures !(a in retries && retries[a] == timer)
    {
      StartTimers(State().(retries := retries - {a}), a, fails);
      hide StartWorker;
      if a !in retries || retries[a] != timer { return; }
      retries := retries - {a};
      if accepting { BeginWorker(a, fails); }
    }

    /** `stopAccepting`. */
    method StopService()
      modifies this
      ensures State() == StopAccepting(old(State()))
    {
      if !accepting { return; }
      accepting := false;
      pending := map[];
      retries := map[];
      RefuseWaiters();
    }
  }
}
