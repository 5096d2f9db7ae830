/**
 Which requests a drain works for: what the flags of a coalesced request say about the requests made, when a
 deferred drain gives way to live input, and how far a drain goes.
 */
module SyncHistory {
  import opened Basics
  import opened SyncWorker

  // ---------------------------------------------------------------- the books of one account

  /** A request as it was made, and how many drains that took it have failed since. */
  datatype Booking = Booking(deferred: bool, failures: nat)

  /** The requests of one account that wait, and those that its drain has taken. */
  datatype Book = Book(waiting: seq<Booking>, taken: seq<Booking>)

  function Failed(bookings: seq<Booking>): seq<Booking> {
    seq(|bookings|, i requires 0 <= i < |bookings| => bookings[i].(failures := bookings[i].failures + 1))
  }

  /** The step asks for the account while the service accepts requests. */
  predicate Requests(s: Sync, step: Step, a: string) { s.accepting && step.Ask? && step.a == a }

  /** The worker of the account puts the requests of a failed drain back. */
  predicate PutsBack(s: Sync, step: Step, a: string) {
    s.accepting && step.Resume? && step.a == a && a in s.workers && s.workers[a].phase == Drained(Threw)
  }

  /**
   The books after a step. A request waits from when it is made; what no longer waits afterwards was taken by the
   drain that began; a failed drain gives back what it had taken.
   */
  function Record(s: Sync, step: Step, book: Book, a: string): Book {
    var asked := if Requests(s, step, a) then book.waiting + [Booking(step.deferred, 0)] else book.waiting;
    var waiting := if PutsBack(s, step, a) then asked + Failed(book.taken) else asked;
    var taken := if PutsBack(s, step, a) then [] else book.taken;
    if waiting != [] && a !in Apply(s, step).pending then Book([], waiting) else Book(waiting, taken)
  }

  /** The books after a run. */
  function Recorded(s: Sync, steps: seq<Step>, book: Book, a: string): Book
    decreases |steps|
  {
    if steps == [] then book else Recorded(Apply(s, steps[0]), steps[1..], Record(s, steps[0], book, a), a)
  }

  // ---------------------------------------------------------------- what a coalesced request says

  /** It is live if one of them is, deferred if one of them is, and counts the fewest failures. */
  ghost predicate Sums(r: Request, bookings: seq<Booking>) {
    && (r.live <==> exists i :: 0 <= i < |bookings| && !bookings[i].deferred)
    && (r.deferred <==> exists i :: 0 <= i < |bookings| && bookings[i].deferred)
    && (exists i :: 0 <= i < |bookings| && bookings[i].failures == r.attempt)
    && (forall i :: 0 <= i < |bookings| ==> r.attempt <= bookings[i].failures)
  }

  /** A live request has come in that no drain has taken yet. */
  ghost predicate NewLive(bookings: seq<Booking>) {
    exists i :: 0 <= i < |bookings| && !bookings[i].deferred && bookings[i].failures == 0
  }

  /** The state agrees with the books of the account. */
  ghost predicate Agrees(s: Sync, book: Book, a: string) {
    s.accepting ==>
      && (a in s.pending <==> book.waiting != [])
      && (a in s.pending ==> Sums(s.pending[a], book.waiting))
      && (a in s.live <==> NewLive(book.waiting))
      && (a in s.workers && Busy(s.workers[a].phase) ==> Sums(s.workers[a].request, book.taken))
  }

  /** For the account nothing changes but the progress of its drain. */
  ghost predicate Unmoved(s: Sync, t: Sync, a: string) {
    && t.accepting == s.accepting
    && (a in t.pending <==> a in s.pending) && (a in s.pending ==> t.pending[a] == s.pending[a])
    && (a in t.live <==> a in s.live)
    && (a in t.workers && Busy(t.workers[a].phase) ==>
          a in s.workers && Busy(s.workers[a].phase) && t.workers[a].request == s.workers[a].request)
  }

  lemma UnmovedTwice(s: Sync, t: Sync, u: Sync, a: string)
    requires Unmoved(s, t, a) && Unmoved(t, u, a)
    ensures Unmoved(s, u, a)
  {}

  lemma MergedSums(r: Request, bookings: seq<Booking>, r': Request, more: seq<Booking>)
    requires Sums(r, bookings) && Sums(r', more)
    ensures Sums(Request(r.live || r'.live, r.deferred || r'.deferred,
                         if r.attempt < r'.attempt then r.attempt else r'.attempt),
                 bookings + more)
  {
    var all, n := bookings + more, |bookings|;
    forall i | 0 <= i < n ensures all[i] == bookings[i] {}
    forall i | 0 <= i < |more| ensures all[n + i] == more[i] {}
    forall i | n <= i < |all| ensures all[i] == more[i - n] {}
  }

  lemma FailedSums(r: Request, bookings: seq<Booking>)
    requires Sums(r, bookings)
    ensures Sums(Request(r.live, r.deferred, r.attempt + 1), Failed(bookings)) && !NewLive(Failed(bookings))
  {
    var more := Failed(bookings);
    forall i | 0 <= i < |bookings|
      ensures more[i].deferred == bookings[i].deferred && more[i].failures == bookings[i].failures + 1 {}
  }

  lemma OneSums(deferred: bool)
    ensures Sums(Request(!deferred, deferred, 0), [Booking(deferred, 0)])
    ensures NewLive([Booking(deferred, 0)]) <==> !deferred
  {
    var one := [Booking(deferred, 0)];
    assert one[0].deferred == deferred && one[0].failures == 0;
  }

  lemma NewLiveMore(bookings: seq<Booking>, more: seq<Booking>)
    ensures NewLive(bookings + more) <==> NewLive(bookings) || NewLive(more)
  {
    var all, n := bookings + more, |bookings|;
    forall i | 0 <= i < n ensures all[i] == bookings[i] {}
    forall i | 0 <= i < |more| ensures all[n + i] == more[i] {}
    forall i | n <= i < |all| ensures all[i] == more[i - n] {}
  }

  /** A request joins those that wait: the merged request sums up all of them. */
  lemma MergeSums(pending: map<string, Request>, a: string, waiting: seq<Booking>, r: Request, more: seq<Booking>)
    requires a in pending <==> waiting != []
    requires a in pending ==> Sums(pending[a], waiting)
    requires Sums(r, more)
    ensures var merged := Merge(pending, a, r.live, r.deferred, r.attempt);
      a in merged && Sums(merged[a], waiting + more)
  {
    if a in pending {
      MergedSums(pending[a], waiting, r, more);
    } else {
      assert waiting + more == more;
    }
    hide Sums;
  }

  // ---------------------------------------------------------------- parts of a step

  lemma LeaveUnmoved(s: Sync, a: string, outcome: Outcome, b: string)
    requires Inv(s) && s.accepting && a in s.workers && Holding(s.workers[a].phase)
    ensures Unmoved(s, LeaveSlot(s, a, outcome), b)
  {
    if s.waiters != [] {
      assert s.waiters[0] in s.waiters && s.waiters[0] in Blocked(s.workers) by { hide RequestsOk, PagesOk; }
    }
    hide Inv;
  }

  lemma ReplyUnmoved(s: Sync, a: string, answer: Answer, b: string)
    requires Inv(s) && s.accepting && a in s.workers && s.workers[a].phase.Calling?
    ensures Unmoved(s, Answered(s, a, answer), b)
  {
    LeaveUnmoved(s, a, Threw, b);
    LeaveUnmoved(s, a, Stopped, b);
    LeaveUnmoved(s, a, Completed, b);
    hide Inv;
    AnotherPageUnmoved(s, a, s.workers[a].phase.page + 1, b);
    hide LeaveSlot, AcquireSlot, Unmoved;
  }

  lemma AnotherPageUnmoved(s: Sync, a: string, page: nat, b: string)
    requires s.accepting && a in s.workers && s.workers[a].phase.Calling? && Unmoved(s, LeaveSlot(s, a, Completed), b)
    ensures Unmoved(s, AcquireSlot(LeaveSlot(s, a, Completed), a, page), b)
  {}

  /** A drain takes all that waits. */
  ghost predicate Takes(s: Sync, t: Sync, a: string) {
    && t.accepting && a in s.pending && a !in t.pending && a in t.workers && t.workers[a].request == s.pending[a]
    && (a in t.live ==> a in s.live && !s.pending[a].live)
  }

  lemma TakeTakes(s: Sync, a: string, fails: bool, b: string)
    requires s.accepting && (a in s.workers ==> !Busy(s.workers[a].phase))
    ensures var t := TakeNext(s, a, fails);
      if a == b && a in s.pending then Takes(s, t, a) else Unmoved(s, t, b)
  {}

  lemma StartTakes(s: Sync, a: string, fails: bool, b: string)
    requires s.accepting
    ensures var t := StartWorker(s, a, fails);
      if a == b && a in s.pending && a !in s.workers then Takes(s, t, a) else Unmoved(s, t, b)
  {
    if a !in s.workers { TakeTakes(s.(workers := s.workers[a := Worker(NO_REQUEST, Ended)]), a, fails, b); }
    hide TakeNext;
  }

  lemma EndTakes(s: Sync, a: string, fails: bool, b: string)
    requires s.accepting && a in s.workers && s.workers[a].phase == Ended
    ensures var t := Continued(s, a, fails);
      Unmoved(s, t, b) || (a == b && a in s.pending && Takes(s, t, a))
  {
    StartTakes(s.(workers := s.workers - {a}), a, fails, b);
    hide StartWorker;
  }

  /** A worker that resumes takes what waits, puts back what failed, or changes nothing for the books. */
  lemma ResumeTakes(s: Sync, a: string, fails: bool, b: string)
    requires Inv(s) && s.accepting && a in s.workers
    ensures var t := Continued(s, a, fails);
      if a == b && s.workers[a].phase == Drained(Threw) then t == RetryLater(s, a, s.workers[a].request)
      else Unmoved(s, t, b) || (a == b && a in s.pending && Takes(s, t, a))
  {
    assert !s.workers[a].phase.Denied? by { hide SlotsOk, PagesOk; }
    hide Inv;
    match s.workers[a].phase
    case Granted(page) =>
    case Drained(outcome) =>
      if outcome != Threw { TakeTakes(s, a, fails, b); }
      hide TakeNext;
    case Ended =>
      EndTakes(s, a, fails, b);
      hide Continued;
    case Waiting(_) =>
    case Calling(_) =>
  }

  // ---------------------------------------------------------------- one step

  lemma UnmovedAgrees(s: Sync, t: Sync, book: Book, a: string)
    requires Agrees(s, book, a) && Unmoved(s, t, a)
    ensures Agrees(t, book, a) && (s.accepting ==> (book.waiting != [] ==> a in t.pending))
  {
    hide Sums, NewLive;
  }

  lemma TakesAgrees(s: Sync, t: Sync, book: Book, a: string)
    requires s.accepting && Agrees(s, book, a) && Takes(s, t, a)
    ensures book.waiting != [] && Agrees(t, Book([], book.waiting), a)
  {
    if NewLive(book.waiting) { assert s.pending[a].live; }
    assert !NewLive([]);
  }

  /** The state once a request is booked, before a worker starts. */
  function Booked(s: Sync, a: string, deferred: bool): Sync {
    s.(pending := Merge(s.pending, a, !deferred, deferred, 0),
       live := if deferred then s.live else s.live + {a},
       retries := s.retries - {a})
  }

  lemma BookedAgrees(s: Sync, book: Book, a: string, deferred: bool)
    requires s.accepting && Agrees(s, book, a)
    ensures Agrees(Booked(s, a, deferred), Book(book.waiting + [Booking(deferred, 0)], book.taken), a)
  {
    OneSums(deferred);
    MergeSums(s.pending, a, book.waiting, Request(!deferred, deferred, 0), [Booking(deferred, 0)]);
    NewLiveMore(book.waiting, [Booking(deferred, 0)]);
    hide Sums, NewLive, Merge;
  }

  lemma AskKeepsBooks(s: Sync, book: Book, b: string, deferred: bool, fails: bool, a: string)
    requires s.accepting && Agrees(s, book, a)
    ensures Agrees(RequestSync(s, b, deferred, fails), Record(s, Ask(b, deferred, fails), book, a), a)
  {
    var mid := Booked(s, b, deferred);
    StartTakes(mid, b, fails, a);
    var t := RequestSync(s, b, deferred, fails);
    hide StartWorker, Agrees, Takes, Unmoved;
    if a == b {
      BookedAgrees(s, book, a, deferred);
      var booked := Book(book.waiting + [Booking(deferred, 0)], book.taken);
      if a !in s.workers {
        TakesAgrees(mid, t, booked, a);
        TakenIsGone(mid, t, a);
      } else {
        UnmovedAgrees(mid, t, booked, a);
      }
    } else {
      BookedElsewhere(s, b, deferred, a);
      UnmovedTwice(s, mid, t, a);
      UnmovedAgrees(s, t, book, a);
    }
  }

  lemma TakenIsGone(s: Sync, t: Sync, a: string)
    requires Takes(s, t, a)
    ensures a !in t.pending
  {}

  lemma BookedElsewhere(s: Sync, b: string, deferred: bool, a: string)
    requires a != b
    ensures Unmoved(s, Booked(s, b, deferred), a)
  {}

  lemma RetryAgrees(s: Sync, book: Book, a: string)
    requires s.accepting && a in s.workers && s.workers[a].phase == Drained(Threw) && Agrees(s, book, a)
    ensures Agrees(RetryLater(s, a, s.workers[a].request), Book(book.waiting + Failed(book.taken), []), a)
    ensures a in RetryLater(s, a, s.workers[a].request).pending
  {
    var r := s.workers[a].request;
    FailedSums(r, book.taken);
    MergeSums(s.pending, a, book.waiting, Request(r.live, r.deferred, r.attempt + 1), Failed(book.taken));
    NewLiveMore(book.waiting, Failed(book.taken));
    assert |Failed(book.taken)| == |book.taken| && book.taken != [];
    hide Sums, NewLive, Merge, Failed;
  }

  lemma ResumeKeepsBooks(s: Sync, book: Book, b: string, fails: bool, a: string)
    requires Inv(s) && s.accepting && b in s.workers && Agrees(s, book, a)
    ensures Agrees(Continued(s, b, fails), Record(s, Resume(b, fails), book, a), a)
  {
    ResumeTakes(s, b, fails, a);
    var t := Continued(s, b, fails);
    hide Inv, Agrees, Takes, Unmoved, Continued, RetryLater, Failed;
    if a == b && s.workers[a].phase == Drained(Threw) {
      RetryAgrees(s, book, a);
    } else if Unmoved(s, t, a) {
      UnmovedAgrees(s, t, book, a);
    } else {
      TakesAgrees(s, t, book, a);
      TakenIsGone(s, t, a);
    }
  }

  lemma FireKeepsBooks(s: Sync, book: Book, b: string, timer: nat, fails: bool, a: string)
    requires s.accepting && Agrees(s, book, a)
    ensures Agrees(Fired(s, b, timer, fails), Record(s, Fire(b, timer, fails), book, a), a)
  {
    var mid := s.(retries := s.retries - {b});
    StartTakes(mid, b, fails, a);
    var t := Fired(s, b, timer, fails);
    TimerUnmoved(s, b, a);
    hide StartWorker, Agrees, Takes, Unmoved;
    UnmovedAgrees(s, mid, book, a);
    if t != s {
      if a == b && a in mid.pending && a !in mid.workers {
        TakesAgrees(mid, t, book, a);
        TakenIsGone(mid, t, a);
      } else {
        UnmovedAgrees(mid, t, book, a);
      }
    } else {
      NoMoveUnmoved(s, a);
      UnmovedAgrees(s, s, book, a);
    }
  }

  lemma TimerUnmoved(s: Sync, b: string, a: string)
    ensures Unmoved(s, s.(retries := s.retries - {b}), a)
  {}

  lemma NoMoveUnmoved(s: Sync, a: string)
    ensures Unmoved(s, s, a)
  {}

  lemma ReplyKeepsBooks(s: Sync, book: Book, b: string, answer: Answer, a: string)
    requires Inv(s) && s.accepting && b in s.workers && s.workers[b].phase.Calling? && Agrees(s, book, a)
    ensures Agrees(Answered(s, b, answer), Record(s, Reply(b, answer), book, a), a)
  {
    ReplyUnmoved(s, b, answer, a);
    hide Inv, Agrees, Unmoved, Answered;
    UnmovedAgrees(s, Answered(s, b, answer), book, a);
  }

  lemma StepKeepsBooks(s: Sync, step: Step, book: Book, a: string)
    requires Inv(s) && Agrees(s, book, a)
    ensures Agrees(Apply(s, step), Record(s, step, book, a), a)
  {
    if s.accepting && step != Stop {
      NoMoveUnmoved(s, a);
      UnmovedAgrees(s, s, book, a);
      hide Inv, Agrees, RequestSync, Continued, Answered, Fired;
      match step
      case Ask(b, deferred, fails) => AskKeepsBooks(s, book, b, deferred, fails, a);
      case Resume(b, fails) => if b in s.workers { ResumeKeepsBooks(s, book, b, fails, a); }
      case Reply(b, answer) =>
        if b in s.workers && s.workers[b].phase.Calling? { ReplyKeepsBooks(s, book, b, answer, a); }
      case Fire(b, timer, fails) => FireKeepsBooks(s, book, b, timer, fails, a);
    } else {
      StopsAccepting(s, step);
      hide Inv, Apply;
    }
  }

  lemma StopsAccepting(s: Sync, step: Step)
    requires !s.accepting || step == Stop
    ensures !Apply(s, step).accepting
  {
    if step != Stop { AcceptingStays(s, step); }
  }

  // ---------------------------------------------------------------- every run

  lemma {:induction false} BooksAgree(s: Sync, steps: seq<Step>, book: Book, a: string)
    requires Inv(s) && Agrees(s, book, a)
    ensures Agrees(Run(s, steps), Recorded(s, steps, book, a), a)
    decreases |steps|
  {
    if steps != [] {
      StepKeepsBooks(s, steps[0], book, a);
      ApplyKeeps(s, steps[0]);
      hide Inv, Agrees, Apply, Record;
      BooksAgree(Apply(s, steps[0]), steps[1..], Record(s, steps[0], book, a), a);
    }
  }

  /** Somebody works for the account: its drain has begun and has not ended, or it failed and is still to be retried. */
  predicate Draining(s: Sync, a: string) { a in s.workers && Busy(s.workers[a].phase) }

  /**
   In every run the flags of a coalesced request say what was asked for: a drain is deferred exactly if every
   request that it took, those of failed drains included, was a deferred one; it is live exactly if one of them
   was live; and it is retried as often as its newest request has failed. The same holds for what still waits.
   */
  lemma DrainKnowsItsRequests(steps: seq<Step>, a: string)
    ensures var s, book := Run(FRESH, steps), Recorded(FRESH, steps, Book([], []), a);
      s.accepting ==>
        && (Draining(s, a) ==>
              && book.taken != []
              && (IsDeferred(s.workers[a].request) <==> forall i :: 0 <= i < |book.taken| ==> book.taken[i].deferred)
              && Sums(s.workers[a].request, book.taken))
        && (a in s.pending <==> book.waiting != [])
        && (a in s.pending ==> Sums(s.pending[a], book.waiting))
        && (a in s.live <==> exists i :: 0 <= i < |book.waiting| && book.waiting[i] == Booking(false, 0))
  {
    FreshInv();
    BooksAgree(FRESH, steps, Book([], []), a);
    var book := Recorded(FRESH, steps, Book([], []), a);
    forall i | 0 <= i < |book.waiting| ensures book.waiting[i] == Booking(false, 0)
      <==> !book.waiting[i].deferred && book.waiting[i].failures == 0 {}
    hide Run, Recorded, Inv;
  }

  // ---------------------------------------------------------------- giving way to live input

  /** The worker is in this place, and a live request waits behind it. */
  ghost predicate LiveWaits(s: Sync, a: string, w: Worker) {
    && s.accepting && a in s.workers && s.workers[a] == w
    && a in s.pending && s.pending[a].live && a in s.live
  }

  /** Steps that leave the worker of the account alone. */
  predicate Elsewhere(step: Step, a: string) {
    step != Stop && !((step.Reply? || step.Resume?) && step.a == a)
  }

  lemma ElsewhereStays(s: Sync, step: Step, a: string, w: Worker)
    requires Inv(s) && LiveWaits(s, a, w) && Elsewhere(step, a) && !w.phase.Waiting?
    ensures LiveWaits(Apply(s, step), a, w)
  {
    assert a !in s.waiters by { hide RequestsOk, PagesOk; assert a !in Blocked(s.workers); }
    hide Inv, StartWorker, Continued, Answered;
    match step
    case Ask(b, deferred, fails) =>
      BookedStays(s, b, deferred, a, w);
      StartElsewhere(Booked(s, b, deferred), b, fails, a, w);
    case Resume(b, fails) => if b in s.workers { OthersResume(s, b, fails, a, w); }
    case Reply(b, answer) => if b in s.workers && s.workers[b].phase.Calling? { OthersReply(s, b, answer, a, w); }
    case Fire(b, timer, fails) => StartElsewhere(s.(retries := s.retries - {b}), b, fails, a, w);
  }

  lemma BookedStays(s: Sync, b: string, deferred: bool, a: string, w: Worker)
    requires LiveWaits(s, a, w)
    ensures LiveWaits(Booked(s, b, deferred), a, w)
  {}

  lemma LeaveElsewhere(s: Sync, b: string, outcome: Outcome, a: string, w: Worker)
    requires LiveWaits(s, a, w) && b != a && a !in s.waiters
    ensures LiveWaits(LeaveSlot(s, b, outcome), a, w)
  {}

  lemma OthersResume(s: Sync, b: string, fails: bool, a: string, w: Worker)
    requires LiveWaits(s, a, w) && b in s.workers && b != a && a !in s.waiters
    ensures LiveWaits(Continued(s, b, fails), a, w)
  {
    LeaveElsewhere(s, b, Stopped, a, w);
    TakeElsewhere(s, b, fails, a, w);
    TakeElsewhere(s.(workers := s.workers - {b}), b, fails, a, w);
    StartElsewhere(s.(workers := s.workers - {b}), b, fails, a, w);
    hide LeaveSlot, TakeNext, StartWorker;
  }

  lemma TakeElsewhere(s: Sync, b: string, fails: bool, a: string, w: Worker)
    requires b != a
    ensures LiveWaits(s, a, w) ==> LiveWaits(TakeNext(s, b, fails), a, w)
  {}

  lemma StartElsewhere(s: Sync, b: string, fails: bool, a: string, w: Worker)
    requires b != a || a in s.workers
    ensures LiveWaits(s, a, w) ==> LiveWaits(StartWorker(s, b, fails), a, w)
  {
    if b != a { TakeElsewhere(s.(workers := s.workers[b := Worker(NO_REQUEST, Ended)]), b, fails, a, w); }
    hide TakeNext;
  }

  lemma OthersReply(s: Sync, b: string, answer: Answer, a: string, w: Worker)
    requires LiveWaits(s, a, w) && b in s.workers && b != a && s.workers[b].phase.Calling? && a !in s.waiters
    ensures LiveWaits(Answered(s, b, answer), a, w)
  {
    LeaveElsewhere(s, b, Threw, a, w);
    LeaveElsewhere(s, b, Stopped, a, w);
    LeaveElsewhere(s, b, Completed, a, w);
    AcquireElse(LeaveSlot(s, b, Completed), b, s.workers[b].phase.page + 1, a, w);
    hide LeaveSlot, AcquireSlot, LiveWaits;
  }

  lemma AcquireElse(s: Sync, b: string, page: nat, a: string, w: Worker)
    requires b != a
    ensures LiveWaits(s, a, w) ==> LiveWaits(AcquireSlot(s, b, page), a, w)
  {}

  lemma {:induction false} ElsewhereRun(s: Sync, steps: seq<Step>, a: string, w: Worker)
    requires Inv(s) && LiveWaits(s, a, w) && !w.phase.Waiting?
    requires forall i :: 0 <= i < |steps| ==> Elsewhere(steps[i], a)
    ensures Inv(Run(s, steps)) && LiveWaits(Run(s, steps), a, w)
    decreases |steps|
  {
    if steps != [] {
      ElsewhereStays(s, steps[0], a, w);
      ApplyKeeps(s, steps[0]);
      hide Inv, LiveWaits, Apply;
      ElsewhereRun(Apply(s, steps[0]), steps[1..], a, w);
    }
  }

  lemma LiveAskWaits(s: Sync, a: string, fails: bool)
    requires s.accepting && a in s.workers
    ensures LiveWaits(Apply(s, Ask(a, false, fails)), a, s.workers[a])
  {}

  lemma YieldsAtPage(s: Sync, a: string, w: Worker, answer: Answer)
    requires Inv(s) && LiveWaits(s, a, w) && w.phase.Calling? && IsDeferred(w.request) && answer in {Last, More}
    ensures LiveWaits(Apply(s, Reply(a, answer)), a, w.(phase := Drained(Stopped)))
  {
    assert a !in s.waiters by { hide RequestsOk, PagesOk; assert a !in Blocked(s.workers); }
    hide Inv;
  }

  lemma NextDrainIsLive(s: Sync, a: string, w: Worker, fails: bool)
    requires LiveWaits(s, a, w) && w.phase == Drained(Stopped)
    ensures var t := Apply(s, Resume(a, fails));
      Draining(t, a) && t.workers[a].request.live && !IsDeferred(t.workers[a].request) && a !in t.pending
  {}

  /**
   Catch-up gives way to live input: while a deferred drain waits for the provider, a live request of its account,
   whatever others do meanwhile, ends the drain with the page under way, and the next drain of the account is live.
   */
  lemma CatchUpYields(s: Sync, a: string, fails: bool, during: seq<Step>, answer: Answer, after: seq<Step>, again: bool)
    requires Inv(s) && s.accepting && a in s.workers && s.workers[a].phase.Calling? && IsDeferred(s.workers[a].request)
    requires forall i :: 0 <= i < |during| ==> Elsewhere(during[i], a)
    requires forall i :: 0 <= i < |after| ==> Elsewhere(after[i], a)
    requires answer in {Last, More}
    ensures var asked := Run(Apply(s, Ask(a, false, fails)), during);
      var ended := Apply(asked, Reply(a, answer));
      var next := Apply(Run(ended, after), Resume(a, again));
      && a in asked.workers && asked.workers[a] == s.workers[a]
      && a in ended.workers && ended.workers[a] == s.workers[a].(phase := Drained(Stopped))
      && Draining(next, a) && next.workers[a].request.live && !IsDeferred(next.workers[a].request)
  {
    var w := s.workers[a];
    var first := Apply(s, Ask(a, false, fails));
    LiveAskWaits(s, a, fails);
    ApplyKeeps(s, Ask(a, false, fails));
    ElsewhereRun(first, during, a, w);
    var asked := Run(first, during);
    YieldsAtPage(asked, a, w, answer);
    ApplyKeeps(asked, Reply(a, answer));
    var ended := Apply(asked, Reply(a, answer));
    ElsewhereRun(ended, after, a, w.(phase := Drained(Stopped)));
    NextDrainIsLive(Run(ended, after), a, w.(phase := Drained(Stopped)), again);
    hide Inv, Apply, Run;
  }

  // ---------------------------------------------------------------- pages

  /** The provider has another page, and the worker goes on. */
  function Round(a: string): seq<Step> { [Reply(a, More), Resume(a, false)] }

  function Rounds(a: string, n: nat): seq<Step> {
    if n == 0 then [] else Round(a) + Rounds(a, n - 1)
  }

  /** The drain is in its call for the page, nobody waits for a slot, and it has no live input to give way to. */
  ghost predicate Fetching(s: Sync, a: string, page: nat) {
    && Inv(s) && s.accepting && s.waiters == [] && a in s.workers && s.workers[a].phase == Calling(page)
    && !(IsDeferred(s.workers[a].request) && a in s.live)
  }

  lemma NextPage(s: Sync, a: string, page: nat)
    requires Fetching(s, a, page) && page < 99
    ensures Fetching(Apply(Apply(s, Reply(a, More)), Resume(a, false)), a, page + 1)
    ensures Apply(Apply(s, Reply(a, More)), Resume(a, false)).workers[a].request == s.workers[a].request
  {
    ApplyKeeps(s, Reply(a, More));
    ApplyKeeps(Apply(s, Reply(a, More)), Resume(a, false));
    assert s.active <= 4 by { hide SlotsOk, PagesOk, RequestsOk; }
    hide Inv;
  }

  /** A drain goes on for a hundred pages, and no further: with another page to come it fails and is tried again. */
  lemma {:induction false} DrainFetchesPages(s: Sync, a: string, page: nat, n: nat)
    requires Fetching(s, a, page) && page + n <= 99
    ensures var t := Run(s, Rounds(a, n));
      && Fetching(t, a, page + n) && t.workers[a].request == s.workers[a].request
      && Apply(t, Reply(a, Last)).workers[a].phase == Drained(Completed)
      && (page + n == 99 ==> Apply(t, Reply(a, More)).workers[a].phase == Drained(Threw))
    decreases n
  {
    if n > 0 {
      NextPage(s, a, page);
      var next := Apply(Apply(s, Reply(a, More)), Resume(a, false));
      DrainFetchesPages(next, a, page + 1, n - 1);
      RunRound(s, a, Rounds(a, n - 1));
      hide Apply, Run, Fetching;
    } else {
      hide Inv;
    }
  }

  lemma RunRound(s: Sync, a: string, rest: seq<Step>)
    ensures Run(s, Round(a) + rest) == Run(Apply(Apply(s, Reply(a, More)), Resume(a, false)), rest)
  {
    var steps := Round(a) + rest;
    assert steps[0] == Reply(a, More) && steps[1..][0] == Resume(a, false) && steps[1..][1..] == rest;
    hide Apply;
  }

  /** Where the drain stands after a page. */
  function Place(accepting: bool, overtaken: bool, page: nat, answer: Answer): Option<Outcome> {
    if answer == Answer.Failed || (accepting && answer == Invalid) then Some(Threw)
    else if !accepting || overtaken then Some(Stopped)
    else if answer == Last then Some(Completed)
    else if page == 99 then Some(Threw)
    else None
  }

  /**
   A call that fails and an answer that is invalid end the drain as failed, the stop and live input end it as
   stopped, the last page ends it as completed, and with another page to come it asks for a slot again.
   */
  lemma PageEndsDrain(s: Sync, a: string, answer: Answer)
    requires Inv(s) && a in s.workers && s.workers[a].phase.Calling?
    ensures var t, page := Apply(s, Reply(a, answer)), s.workers[a].phase.page;
      var place := Place(s.accepting, IsDeferred(s.workers[a].request) && a in s.live, page, answer);
      && a in t.workers && t.workers[a].request == s.workers[a].request && t.pending == s.pending && t.live == s.live
      && (if place.Some? then t.workers[a].phase == Drained(place.value)
          else t.workers[a].phase == Granted(page + 1) || t.workers[a].phase == Waiting(page + 1))
  {
    assert a !in s.waiters by { hide RequestsOk, PagesOk; assert a !in Blocked(s.workers); }
    assert s.waiters != [] ==> s.accepting by { hide SlotsOk, PagesOk, RequestsOk; }
    assert s.workers[a].phase.page < 100 by { hide SlotsOk, RequestsOk; }
    hide Inv;
  }

  /** A failed drain gives its requests back, with a timer to try them again. */
  lemma FailureIsRetried(s: Sync, a: string, answer: Answer, fails: bool)
    requires Inv(s) && s.accepting && a in s.workers && s.workers[a].phase.Calling?
    requires answer in {Answer.Failed, Invalid}
    ensures var t := Apply(Apply(s, Reply(a, answer)), Resume(a, fails));
      && a in t.workers && t.workers[a].phase == Ended
      && a in t.pending && a in t.retries && t.retries[a] == s.nextTimer
      && (s.workers[a].request.live ==> t.pending[a].live) && (s.workers[a].request.deferred ==> t.pending[a].deferred)
  {
    PageEndsDrain(s, a, answer);
    AcceptingStays(s, Reply(a, answer));
    StepTimers(s, Reply(a, answer));
    ReplyTimers(s, a, answer);
    hide Inv, Answered;
  }

  lemma ReplyTimers(s: Sync, a: string, answer: Answer)
    requires answer in {Answer.Failed, Invalid} && s.accepting && a in s.workers && s.workers[a].phase.Calling?
    ensures Apply(s, Reply(a, answer)).nextTimer == s.nextTimer
  {
    LeaveTimers(s, a, Threw);
    hide LeaveSlot;
  }

  // ---------------------------------------------------------------- the stop

  /** Nothing is accepted, nothing waits and no timer is set. */
  ghost predicate Over(s: Sync) { !s.accepting && s.pending == map[] && s.retries == map[] && s.waiters == [] }

  lemma StopEnds(s: Sync)
    requires s.accepting
    ensures Over(Apply(s, Stop)) && Apply(s, Stop).workers.Keys == s.workers.Keys
  {
    DenyAllKeys(s.workers, s.waiters);
  }

  lemma {:induction false} DenyAllKeys(workers: map<string, Worker>, waiters: seq<string>)
    ensures DenyAll(workers, waiters).Keys == workers.Keys
    decreases |waiters|
  {
    if waiters != [] { DenyAllKeys(SetPhase(workers, waiters[0], Denied), waiters[1..]); }
  }

  lemma OverStays(s: Sync, step: Step)
    requires Over(s)
    ensures Over(Apply(s, step)) && Apply(s, step).workers.Keys <= s.workers.Keys
  {}

  /** After the stop no request is taken up again and no worker begins, whatever happens. */
  lemma {:induction false} StopIsFinal(s: Sync, steps: seq<Step>)
    requires Over(s)
    ensures Over(Run(s, steps)) && Run(s, steps).workers.Keys <= s.workers.Keys
    decreases |steps|
  {
    if steps != [] {
      OverStays(s, steps[0]);
      hide Over, Apply;
      StopIsFinal(Apply(s, steps[0]), steps[1..]);
    }
  }

  /** The stop, and everything after it. */
  lemma NothingAfterStop(s: Sync, steps: seq<Step>)
    requires s.accepting
    ensures var t := Run(Apply(s, Stop), steps);
      Over(t) && t.workers.Keys <= s.workers.Keys
  {
    hide *;
    StopEnds(s);
    StopIsFinal(Apply(s, Stop), steps);
  }
}
