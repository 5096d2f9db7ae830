/**
 The conversation slots: a bounded pool of active conversations, exclusive low-priority work, and two
 queues of waiters that are served in order.
 */
module Scheduler {
  import opened Basics
  import opened Tables

  datatype Priority = High | Low

  /**
   The slots. `asked` and `answered` are history variables: the waiters that were queued and those whose
   promise was resolved, in order.
   */
  datatype Slots = Slots(
    max: nat,
    active: map<Conversation, Priority>,
    high: seq<Conversation>,
    low: seq<Conversation>,
    paused: set<Channel>,
    asked: seq<Conversation>,
    answered: seq<Conversation>)

  // ---------------------------------------------------------------- the specification

  predicate LowRuns(active: map<Conversation, Priority>) { exists k :: k in active && active[k] == Low }

  /** The high-priority loop of `#wakeWaiters`. */
  function WakeHigh(s: Slots): Slots
    decreases |s.high|
  {
    if s.high == [] || |s.active| >= s.max || LowRuns(s.active) then s
    else WakeHigh(s.(high := s.high[1..], active := s.active[s.high[0] := High], answered := s.answered + [s.high[0]]))
  }

  /** The low-priority half of `#wakeWaiters`. */
  function WakeLow(s: Slots): Slots {
    if s.active == map[] && s.high == [] && s.low != []
    then s.(low := s.low[1..], active := map[s.low[0] := Low], answered := s.answered + [s.low[0]]) else s
  }

  function Wake(s: Slots): Slots { WakeLow(WakeHigh(s)) }

  datatype Admission = Refused | Granted | Queued

  /** `#acquire`; `priority` is already raised to high when live input is queued. */
  function Acquire(s: Slots, key: Conversation, priority: Priority): (Slots, Admission) {
    if key.channel in s.paused then (s, Refused)
    else if key in s.active then (s, Granted)
    else if priority == High && !LowRuns(s.active) && |s.active| < s.max then
      (s.(active := s.active[key := High]), Granted)
    else if priority == Low && s.active == map[] && s.high == [] then (s.(active := s.active[key := Low]), Granted)
    else if priority == High then (s.(high := s.high + [key], asked := s.asked + [key]), Queued)
    else (s.(low := s.low + [key], asked := s.asked + [key]), Queued)
  }

  /** `#release`. */
  function Release(s: Slots, key: Conversation): Slots { Wake(s.(active := s.active - {key})) }

  function IndexOf(keys: seq<Conversation>, key: Conversation): (i: nat)
    ensures i <= |keys| && (i < |keys| ==> keys[i] == key) && forall j :: 0 <= j < i ==> keys[j] != key
  {
    if keys == [] || keys[0] == key then 0 else 1 + IndexOf(keys[1..], key)
  }

  function Raised(active: map<Conversation, Priority>, key: Conversation): map<Conversation, Priority> {
    if key in active then active[key := High] else active
  }

  function Cut(keys: seq<Conversation>, i: nat): seq<Conversation>
    requires i < |keys|
  {
    keys[..i] + keys[i + 1..]
  }

  /** `#promote`. */
  function Promote(s: Slots, key: Conversation): Slots {
    var raised, i := s.(active := Raised(s.active, key)), IndexOf(s.low, key);
    if i < |s.low| then Wake(raised.(low := Cut(s.low, i), high := s.high + [key]))
    else if key in s.active then Wake(raised)
    else s
  }

  function Keep(keys: seq<Conversation>, channel: Channel): seq<Conversation> {
    if keys == [] then []
    else (if keys[0].channel == channel then [] else [keys[0]]) + Keep(keys[1..], channel)
  }

  /** The waiters of a channel, last first. */
  function Dropped(keys: seq<Conversation>, channel: Channel): seq<Conversation> {
    if keys == [] then []
    else Dropped(keys[1..], channel) + (if keys[0].channel == channel then [keys[0]] else [])
  }

  /** `setChannelEnabled(channel, false)`: waiters of the channel are resolved without a slot. */
  function Pause(s: Slots, channel: Channel): Slots {
    Wake(s.(
      paused := s.paused + {channel},
      high := Keep(s.high, channel),
      low := Keep(s.low, channel),
      answered := s.answered + Dropped(s.high, channel) + Dropped(s.low, channel)))
  }

  function Resume(s: Slots, channel: Channel): Slots { s.(paused := s.paused - {channel}) }

  // ---------------------------------------------------------------- the invariant

  ghost predicate Distinct(keys: seq<Conversation>) {
    forall i, j :: 0 <= i < j < |keys| ==> keys[i] != keys[j]
  }

  /** The pool is bounded and low-priority work runs alone. */
  ghost predicate Pool(max: nat, active: map<Conversation, Priority>) {
    1 <= max && |active| <= max && forall k, l :: k in active && l in active && active[k] == Low ==> k == l
  }

  /** Waiters wait once, are not active, and belong to channels that run. */
  ghost predicate Queues(active: set<Conversation>, high: seq<Conversation>, low: seq<Conversation>,
                         paused: set<Channel>) {
    && Distinct(high) && Distinct(low)
    && (forall k :: k in high ==> k !in active && k !in low && k.channel !in paused)
    && (forall k :: k in low ==> k !in active && k.channel !in paused)
  }

  /** Every waiter that was queued waits or was answered, once. */
  ghost predicate Conserved(asked: seq<Conversation>, answered: seq<Conversation>, high: seq<Conversation>,
                            low: seq<Conversation>) {
    multiset(asked) == multiset(answered) + multiset(high) + multiset(low)
  }

  /** What holds between statements as well. */
  ghost predicate Consistent(s: Slots) {
    && Pool(s.max, s.active)
    && Queues(s.active.Keys, s.high, s.low, s.paused)
    && Conserved(s.asked, s.answered, s.high, s.low)
  }

  /** Nobody waits without a reason. */
  ghost predicate Justified(s: Slots) {
    && (s.high != [] ==> |s.active| == s.max || LowRuns(s.active))
    && (s.low != [] ==> s.active != map[])
  }

  ghost predicate Sound(s: Slots) { Consistent(s) && Justified(s) }

  // ---------------------------------------------------------------- parts of the invariant

  lemma PoolAdd(max: nat, active: map<Conversation, Priority>, key: Conversation, priority: Priority)
    requires Pool(max, active) && |active| < max && !LowRuns(active) && (priority == Low ==> active == map[])
    ensures Pool(max, active[key := priority])
  {
    var after := active[key := priority];
    assert after.Keys == active.Keys + {key} && |after| == |after.Keys| && |active| == |active.Keys|;
    assert forall k :: k in active ==> active[k] == High;
  }

  lemma {:induction false} Smaller<T>(some: set<T>, all: set<T>)
    requires some <= all
    ensures |some| <= |all|
  {
    if x :| x in some {
      Smaller(some - {x}, all - {x});
    }
  }

  lemma PoolFewer(max: nat, active: map<Conversation, Priority>, key: Conversation)
    requires Pool(max, active)
    ensures Pool(max, active - {key}) && (active - {key}).Keys == active.Keys - {key}
    ensures key in active ==> |active - {key}| < max && !LowRuns(active - {key})
  {
    var after := active - {key};
    assert after.Keys == active.Keys - {key} && |after| == |after.Keys| && |active| == |active.Keys|;
    Smaller(after.Keys, active.Keys);
  }

  lemma PoolRaise(max: nat, active: map<Conversation, Priority>, key: Conversation)
    requires Pool(max, active)
    ensures Pool(max, Raised(active, key)) && Raised(active, key).Keys == active.Keys
  {
    var after := Raised(active, key);
    assert after.Keys == active.Keys && |after| == |after.Keys| && |active| == |active.Keys|;
  }

  lemma DistinctTail(keys: seq<Conversation>)
    requires keys != [] && Distinct(keys)
    ensures Distinct(keys[1..]) && forall k :: k in keys[1..] <==> k in keys && k != keys[0]
  {
    assert forall i :: 0 <= i < |keys[1..]| ==> keys[1..][i] == keys[i + 1];
    assert keys == [keys[0]] + keys[1..];
  }

  lemma DistinctSnoc(keys: seq<Conversation>, key: Conversation)
    requires Distinct(keys) && key !in keys
    ensures Distinct(keys + [key]) && forall k :: k in keys + [key] <==> k in keys || k == key
  {}

  lemma CutMembers(keys: seq<Conversation>, i: nat)
    requires i < |keys| && Distinct(keys)
    ensures forall k :: k in Cut(keys, i) <==> k in keys && k != keys[i]
  {
    var rest := Cut(keys, i);
    forall k | k in rest ensures k in keys && k != keys[i] {
      var j :| 0 <= j < |rest| && rest[j] == k;
      assert keys[if j < i then j else j + 1] == k;
    }
    forall k | k in keys && k != keys[i] ensures k in rest {
      var j :| 0 <= j < |keys| && keys[j] == k;
      assert rest[if j < i then j else j - 1] == k;
    }
  }

  lemma CutDistinct(keys: seq<Conversation>, i: nat)
    requires i < |keys| && Distinct(keys)
    ensures Distinct(Cut(keys, i))
  {
    assert forall j :: 0 <= j < |Cut(keys, i)| ==> Cut(keys, i)[j] == keys[if j < i then j else j + 1];
  }

  lemma CutCounts(keys: seq<Conversation>, i: nat)
    requires i < |keys|
    ensures multiset(keys) == multiset(Cut(keys, i)) + multiset{keys[i]}
  {
    assert keys == keys[..i] + [keys[i]] + keys[i + 1..];
  }

  function AdmitFirst(s: Slots): Slots
    requires s.high != []
  {
    s.(high := s.high[1..], active := s.active[s.high[0] := High], answered := s.answered + [s.high[0]])
  }

  lemma QueuesPop(active: set<Conversation>, high: seq<Conversation>, low: seq<Conversation>, paused: set<Channel>)
    requires Queues(active, high, low, paused) && high != []
    ensures Queues(active + {high[0]}, high[1..], low, paused)
  {
    DistinctTail(high);
    hide Distinct;
    assert high[0] in high;
  }

  lemma ConservedPop(asked: seq<Conversation>, answered: seq<Conversation>, high: seq<Conversation>,
                     low: seq<Conversation>)
    requires Conserved(asked, answered, high, low) && high != []
    ensures Conserved(asked, answered + [high[0]], high[1..], low)
  {
    assert high == [high[0]] + high[1..];
    assert multiset(high) == multiset{high[0]} + multiset(high[1..]);
  }

  lemma AdmitHigh(s: Slots)
    requires Consistent(s) && s.high != [] && |s.active| < s.max && !LowRuns(s.active)
    ensures Consistent(AdmitFirst(s))
  {
    hide Pool, Distinct, LowRuns, Queues, Conserved;
    PoolAdd(s.max, s.active, s.high[0], High);
    QueuesPop(s.active.Keys, s.high, s.low, s.paused);
    ConservedPop(s.asked, s.answered, s.high, s.low);
    assert s.active[s.high[0] := High].Keys == s.active.Keys + {s.high[0]};
  }

  /** The conversation is active with the priority. */
  predicate Runs(active: map<Conversation, Priority>, key: Conversation, priority: Priority) {
    key in active && active[key] == priority
  }

  /** Whoever was active still is, with the same priority. */
  ghost predicate StillRun(active: map<Conversation, Priority>, active': map<Conversation, Priority>) {
    forall k :: k in active ==> Runs(active', k, active[k])
  }

  /** The queue shrinks from the front, and those taken off it are active with high priority. */
  ghost predicate TakenFrom(before: seq<Conversation>, after: seq<Conversation>, active: map<Conversation, Priority>) {
    exists n: nat :: TakesFirst(before, after, active, n)
  }

  ghost predicate TakesFirst(before: seq<Conversation>, after: seq<Conversation>, active: map<Conversation, Priority>,
                             n: nat) {
    n <= |before| && after == before[n..] && forall i :: 0 <= i < n ==> Runs(active, before[i], High)
  }

  lemma {:induction false} WakeHighSound(s: Slots)
    requires Consistent(s)
    ensures var after := WakeHigh(s);
      && Consistent(after) && after.max == s.max && after.paused == s.paused && after.low == s.low
      && (after.high != [] ==> |after.active| == s.max || LowRuns(after.active))
      && TakenFrom(s.high, after.high, after.active) && StillRun(s.active, after.active)
    decreases |s.high|
  {
    if s.high == [] || |s.active| >= s.max || LowRuns(s.active) {
      assert TakesFirst(s.high, s.high, s.active, 0);
    } else {
      AdmitHigh(s);
      AdmitsNew(s);
      hide Consistent, LowRuns, TakenFrom;
      WakeHighSound(AdmitFirst(s));
      assert Runs(AdmitFirst(s).active, s.high[0], High);
      assert WakeHigh(s) == WakeHigh(AdmitFirst(s));
      hide WakeHigh, AdmitFirst;
      TakesOneMore(s.high, WakeHigh(s).high, WakeHigh(s).active);
    }
  }

  lemma AdmitsNew(s: Slots)
    requires Consistent(s) && s.high != []
    ensures s.high[0] !in s.active && AdmitFirst(s).active == s.active[s.high[0] := High]
  {
    hide Pool, Conserved, Distinct;
    assert s.high[0] in s.high;
  }

  lemma TakesOneMore(before: seq<Conversation>, after: seq<Conversation>, active: map<Conversation, Priority>)
    requires before != [] && Runs(active, before[0], High) && TakenFrom(before[1..], after, active)
    ensures TakenFrom(before, after, active)
  {
    var n: nat :| TakesFirst(before[1..], after, active, n);
    assert before[1..][n..] == before[n + 1..];
    forall i | 0 <= i < n + 1 ensures Runs(active, before[i], High) {
      if i > 0 { assert before[1..][i - 1] == before[i]; }
    }
    assert TakesFirst(before, after, active, n + 1);
  }

  lemma WakeLowSound(s: Slots)
    requires Consistent(s) && (s.high != [] ==> |s.active| == s.max || LowRuns(s.active))
    ensures Sound(WakeLow(s)) && WakeLow(s).high == s.high && WakeLow(s).max == s.max && WakeLow(s).paused == s.paused
    ensures StillRun(s.active, WakeLow(s).active)
  {
    if s.active == map[] && s.high == [] && s.low != [] {
      PoolAdd(s.max, s.active, s.low[0], Low);
      DistinctTail(s.low);
      assert s.low == [s.low[0]] + s.low[1..];
      assert s.active[s.low[0] := Low] == map[s.low[0] := Low];
      assert map[s.low[0] := Low].Keys == {s.low[0]};
      hide Pool, Distinct;
    }
  }

  lemma WakeSound(s: Slots)
    requires Consistent(s)
    ensures Sound(Wake(s)) && Wake(s).max == s.max && Wake(s).paused == s.paused
  {
    hide Consistent, Justified;
    WakeHighSound(s);
    WakeLowSound(WakeHigh(s));
  }

  // ---------------------------------------------------------------- every operation

  datatype Op =
    | Ask(key: Conversation, priority: Priority)
    | Done(key: Conversation)
    | Raise(key: Conversation)
    | Stop(channel: Channel)
    | Go(channel: Channel)

  function Apply(s: Slots, op: Op): Slots {
    match op
    case Ask(key, priority) => Acquire(s, key, priority).0
    case Done(key) => Release(s, key)
    case Raise(key) => Promote(s, key)
    case Stop(channel) => Pause(s, channel)
    case Go(channel) => Resume(s, channel)
  }

  /** A conversation asks for one slot at a time. */
  predicate Allowed(s: Slots, op: Op) {
    op.Ask? ==> op.key !in s.high && op.key !in s.low
  }

  lemma GrantedConsistent(s: Slots, key: Conversation, priority: Priority)
    requires Consistent(s) && key !in s.high && key !in s.low && |s.active| < s.max && !LowRuns(s.active)
    requires priority == Low ==> s.active == map[]
    ensures Consistent(s.(active := s.active[key := priority]))
  {
    PoolAdd(s.max, s.active, key, priority);
    assert s.active[key := priority].Keys == s.active.Keys + {key};
    hide Pool, Distinct, LowRuns;
  }

  lemma QueuedConsistent(s: Slots, key: Conversation, priority: Priority)
    requires Consistent(s) && key !in s.high && key !in s.low && key !in s.active && key.channel !in s.paused
    ensures Consistent(s.(high := s.high + [key], asked := s.asked + [key]))
    ensures Consistent(s.(low := s.low + [key], asked := s.asked + [key]))
  {
    DistinctSnoc(s.high, key);
    DistinctSnoc(s.low, key);
    hide Pool, Distinct;
  }

  lemma PoolEmpty(active: map<Conversation, Priority>)
    ensures active == map[] ==> !LowRuns(active) && |active| == 0
  {}

  lemma AskSound(s: Slots, key: Conversation, priority: Priority)
    requires Sound(s) && key !in s.high && key !in s.low
    ensures Sound(Acquire(s, key, priority).0) && Acquire(s, key, priority).0.max == s.max
  {
    assert s.max >= 1;
    PoolEmpty(s.active);
    hide Consistent, LowRuns;
    if key.channel !in s.paused && key !in s.active {
      QueuedConsistent(s, key, priority);
      if |s.active| < s.max && !LowRuns(s.active) && (priority == Low ==> s.active == map[]) {
        GrantedConsistent(s, key, priority);
      }
    }
  }

  function Without(s: Slots, key: Conversation): Slots { s.(active := s.active - {key}) }

  lemma WithoutConsistent(s: Slots, key: Conversation)
    requires Consistent(s)
    ensures Consistent(Without(s, key))
    ensures key in s.active ==> |Without(s, key).active| < s.max && !LowRuns(Without(s, key).active)
  {
    PoolFewer(s.max, s.active, key);
    hide Pool, Distinct, LowRuns;
  }

  /** The low waiter at `i` joins the high ones. */
  function Moved(s: Slots, key: Conversation, i: nat): Slots
    requires i < |s.low|
  {
    s.(active := Raised(s.active, key), low := Cut(s.low, i), high := s.high + [key])
  }

  lemma QueuesMove(active: set<Conversation>, high: seq<Conversation>, low: seq<Conversation>, paused: set<Channel>,
                   i: nat)
    requires Queues(active, high, low, paused) && i < |low|
    ensures Queues(active, high + [low[i]], Cut(low, i), paused)
  {
    assert low[i] in low;
    CutMembers(low, i);
    CutDistinct(low, i);
    DistinctSnoc(high, low[i]);
    hide Distinct, Cut;
  }

  lemma ConservedMove(asked: seq<Conversation>, answered: seq<Conversation>, high: seq<Conversation>,
                      low: seq<Conversation>, i: nat)
    requires Conserved(asked, answered, high, low) && i < |low|
    ensures Conserved(asked, answered, high + [low[i]], Cut(low, i))
  {
    CutCounts(low, i);
    hide Cut;
    assert multiset(high + [low[i]]) == multiset(high) + multiset{low[i]};
  }

  lemma MovedConsistent(s: Slots, key: Conversation, i: nat)
    requires Consistent(s) && i < |s.low| && s.low[i] == key
    ensures Consistent(Moved(s, key, i))
  {
    hide Pool, Distinct, Raised, Queues, Conserved, Cut;
    PoolRaise(s.max, s.active, key);
    QueuesMove(s.active.Keys, s.high, s.low, s.paused, i);
    ConservedMove(s.asked, s.answered, s.high, s.low, i);
  }

  lemma RaisedConsistent(s: Slots, key: Conversation)
    requires Consistent(s)
    ensures Consistent(s.(active := Raised(s.active, key)))
  {
    PoolRaise(s.max, s.active, key);
    hide Pool, Distinct, Raised;
  }

  lemma RaiseSound(s: Slots, key: Conversation)
    requires Sound(s)
    ensures Sound(Promote(s, key)) && Promote(s, key).max == s.max
  {
    hide Consistent, Justified, Wake, Raised;
    var i := IndexOf(s.low, key);
    if i < |s.low| {
      MovedConsistent(s, key, i);
      WakeSound(Moved(s, key, i));
    } else {
      RaisedConsistent(s, key);
      WakeSound(s.(active := Raised(s.active, key)));
    }
  }

  lemma {:induction false} KeepCounts(keys: seq<Conversation>, channel: Channel)
    ensures multiset(keys) == multiset(Keep(keys, channel)) + multiset(Dropped(keys, channel))
  {
    if keys != [] {
      KeepCounts(keys[1..], channel);
      var k, kept, gone := keys[0], Keep(keys[1..], channel), Dropped(keys[1..], channel);
      assert keys == [k] + keys[1..];
      assert multiset(keys) == multiset{k} + multiset(keys[1..]);
      if k.channel == channel {
        assert Keep(keys, channel) == kept && Dropped(keys, channel) == gone + [k];
      } else {
        assert Keep(keys, channel) == [k] + kept && Dropped(keys, channel) == gone;
      }
    }
  }

  lemma {:induction false} KeepMembers(keys: seq<Conversation>, channel: Channel)
    ensures forall k :: k in Keep(keys, channel) <==> k in keys && k.channel != channel
  {
    if keys != [] {
      KeepMembers(keys[1..], channel);
      assert keys == [keys[0]] + keys[1..];
    }
  }

  lemma {:induction false} KeepDistinct(keys: seq<Conversation>, channel: Channel)
    requires Distinct(keys)
    ensures Distinct(Keep(keys, channel))
  {
    if keys != [] {
      DistinctTail(keys);
      KeepDistinct(keys[1..], channel);
      KeepMembers(keys[1..], channel);
      var rest := Keep(keys[1..], channel);
      assert keys[0] !in rest;
    }
  }

  /** The waiters of a channel are gone. */
  function Stopped(s: Slots, channel: Channel): Slots {
    s.(
      paused := s.paused + {channel},
      high := Keep(s.high, channel),
      low := Keep(s.low, channel),
      answered := s.answered + Dropped(s.high, channel) + Dropped(s.low, channel))
  }

  lemma KeepQueues(active: set<Conversation>, high: seq<Conversation>, low: seq<Conversation>, paused: set<Channel>,
                   channel: Channel)
    requires Queues(active, high, low, paused)
    ensures Queues(active, Keep(high, channel), Keep(low, channel), paused + {channel})
  {
    KeepDistinct(high, channel);
    KeepDistinct(low, channel);
    KeepMembers(high, channel);
    KeepMembers(low, channel);
    hide Keep, Distinct;
  }

  lemma StoppedConsistent(s: Slots, channel: Channel)
    requires Consistent(s)
    ensures Consistent(Stopped(s, channel))
  {
    KeepQueues(s.active.Keys, s.high, s.low, s.paused, channel);
    KeepCounts(s.high, channel);
    KeepCounts(s.low, channel);
    hide Keep, Dropped, Queues, Pool;
  }

  /** Every operation keeps the slots sound. */
  lemma ApplySound(s: Slots, op: Op)
    requires Sound(s) && Allowed(s, op)
    ensures Sound(Apply(s, op)) && Apply(s, op).max == s.max
  {
    match op
    case Ask(key, priority) => AskSound(s, key, priority);
    case Done(key) =>
      WithoutConsistent(s, key);
      hide Consistent, Justified;
      WakeSound(Without(s, key));
    case Raise(key) => RaiseSound(s, key);
    case Stop(channel) =>
      StoppedConsistent(s, channel);
      hide Consistent, Justified;
      WakeSound(Stopped(s, channel));
    case Go(channel) => hide Pool, Distinct, Conserved, Justified;
  }

  // ---------------------------------------------------------------- runs

  function Start(max: nat): Slots { Slots(max, map[], [], [], {}, [], []) }

  function Run(s: Slots, ops: seq<Op>): Slots
    decreases |ops|
  {
    if ops == [] then s else Run(Apply(s, ops[0]), ops[1..])
  }

  predicate Valid(s: Slots, ops: seq<Op>)
    decreases |ops|
  {
    ops != [] ==> Allowed(s, ops[0]) && Valid(Apply(s, ops[0]), ops[1..])
  }

  lemma {:induction false} RunSound(s: Slots, ops: seq<Op>)
    requires Sound(s) && Valid(s, ops)
    ensures Sound(Run(s, ops)) && Run(s, ops).max == s.max
    decreases |ops|
  {
    hide Apply, Sound;
    if ops != [] {
      ApplySound(s, ops[0]);
      RunSound(Apply(s, ops[0]), ops[1..]);
    }
  }

  /**
   In every reachable state the pool is bounded, low-priority work runs alone, waiters have a reason
   to wait, and every waiter ever queued either waits or was answered exactly once.
   */
  lemma SlotsAlwaysSound(max: nat, ops: seq<Op>)
    requires max >= 1 && Valid(Start(max), ops)
    ensures var s := Run(Start(max), ops);
      && |s.active| <= max
      && (forall k, l :: k in s.active && l in s.active && s.active[k] == Low ==> k == l)
      && (s.high != [] ==> |s.active| == max || LowRuns(s.active))
      && (s.low != [] ==> s.active != map[])
      && multiset(s.asked) == multiset(s.answered) + multiset(s.high) + multiset(s.low)
  {
    RunSound(Start(max), ops);
  }

  /** A conversation that is admitted at once overtakes nobody of its own class. */
  lemma NoOvertaking(s: Slots, key: Conversation, priority: Priority)
    requires Sound(s) && key !in s.active
    ensures Acquire(s, key, priority).1 == Granted ==> s.high == [] && (priority == Low ==> s.low == [])
  {}

  // ---------------------------------------------------------------- bounded bypass

  /** The operation frees a slot. */
  predicate Frees(s: Slots, op: Op) { op.Done? && op.key in s.active }

  function Freed(s: Slots, ops: seq<Op>): nat
    decreases |ops|
  {
    if ops == [] then 0 else (if Frees(s, ops[0]) then 1 else 0) + Freed(Apply(s, ops[0]), ops[1..])
  }

  /** The waiter has been given a slot with high priority at some point of the run. */
  ghost predicate Admitted(s: Slots, ops: seq<Op>, key: Conversation)
    decreases |ops|
  {
    Runs(s.active, key, High) || (ops != [] && Admitted(Apply(s, ops[0]), ops[1..], key))
  }

  /** The waiter is now active with high priority, or it still waits at most at the given position. */
  ghost predicate Advanced(s: Slots, key: Conversation, position: int) {
    Runs(s.active, key, High) || exists i: nat :: i < |s.high| && s.high[i] == key && i <= position
  }

  lemma WakeAdvances(s: Slots, key: Conversation, i: nat)
    requires Consistent(s) && i < |s.high| && s.high[i] == key
    ensures Advanced(Wake(s), key, if |s.active| < s.max && !LowRuns(s.active) then i - 1 else i)
  {
    WakeHighSound(s);
    WakeLowSound(WakeHigh(s));
    var admits := |s.active| < s.max && !LowRuns(s.active);
    if admits { WakeHighTakes(s); }
    hide Consistent, Justified, Sound, WakeLow, LowRuns;
    var after := WakeHigh(s);
    var n: nat :| TakesFirst(s.high, after.high, after.active, n);
    if i < n {
      assert Runs(after.active, key, High);
      assert Runs(Wake(s).active, key, High);
    } else {
      assert Wake(s).high[i - n] == key;
    }
  }

  lemma WakeHighTakes(s: Slots)
    requires Consistent(s) && s.high != [] && |s.active| < s.max && !LowRuns(s.active)
    ensures |WakeHigh(s).high| < |s.high|
  {
    AdmitHigh(s);
    hide Consistent, LowRuns;
    WakeHighSound(AdmitFirst(s));
    assert WakeHigh(s) == WakeHigh(AdmitFirst(s));
    var n: nat :| TakesFirst(s.high[1..], WakeHigh(s).high, WakeHigh(s).active, n);
  }

  lemma {:induction false} KeepPosition(keys: seq<Conversation>, channel: Channel, i: nat)
    requires i < |keys| && keys[i].channel != channel
    ensures exists j: nat :: j <= i && j < |Keep(keys, channel)| && Keep(keys, channel)[j] == keys[i]
  {
    if i > 0 {
      KeepPosition(keys[1..], channel, i - 1);
      var j: nat :| j <= i - 1 && j < |Keep(keys[1..], channel)| && Keep(keys[1..], channel)[j] == keys[i];
      var next := if keys[0].channel == channel then j else j + 1;
      assert Keep(keys, channel)[next] == keys[i];
    } else {
      assert Keep(keys, channel)[0] == keys[0];
    }
  }

  lemma DoneAdvances(s: Slots, key: Conversation, i: nat, other: Conversation)
    requires Sound(s) && i < |s.high| && s.high[i] == key
    ensures Advanced(Release(s, other), key, if other in s.active then i - 1 else i)
  {
    WithoutConsistent(s, other);
    hide Consistent, Justified, LowRuns, Wake;
    WakeAdvances(Without(s, other), key, i);
  }

  lemma RaiseAdvances(s: Slots, key: Conversation, i: nat, other: Conversation)
    requires Sound(s) && i < |s.high| && s.high[i] == key
    ensures Advanced(Promote(s, other), key, i)
  {
    var n := IndexOf(s.low, other);
    RaisedConsistent(s, other);
    if n < |s.low| { MovedConsistent(s, other, n); }
    hide Consistent, Justified, Wake, LowRuns, Raised;
    if n < |s.low| {
      WakeAdvances(Moved(s, other, n), key, i);
    } else {
      WakeAdvances(s.(active := Raised(s.active, other)), key, i);
    }
  }

  lemma StopAdvances(s: Slots, key: Conversation, i: nat, channel: Channel)
    requires Sound(s) && i < |s.high| && s.high[i] == key && key.channel != channel
    ensures Advanced(Pause(s, channel), key, i)
  {
    StoppedConsistent(s, channel);
    KeepPosition(s.high, channel, i);
    hide Consistent, Justified, Wake, LowRuns, Keep, Dropped;
    var j: nat :| j <= i && j < |Keep(s.high, channel)| && Keep(s.high, channel)[j] == key;
    WakeAdvances(Stopped(s, channel), key, j);
  }

  /** No operation moves a waiter back; freeing a slot moves it on. */
  lemma ApplyAdvances(s: Slots, op: Op, key: Conversation, i: nat)
    requires Sound(s) && i < |s.high| && s.high[i] == key && op != Stop(key.channel)
    ensures Advanced(Apply(s, op), key, if Frees(s, op) then i - 1 else i)
  {
    hide Sound, Release, Promote, Pause, LowRuns;
    match op
    case Ask(other, priority) => assert Acquire(s, other, priority).0.high[i] == key;
    case Done(other) => DoneAdvances(s, key, i, other);
    case Raise(other) => RaiseAdvances(s, key, i, other);
    case Stop(channel) => StopAdvances(s, key, i, channel);
    case Go(channel) => assert Resume(s, channel).high[i] == key;
  }

  /**
   Bounded bypass: a high-priority waiter at position `i` has a slot, with high priority, after at most `i + 1`
   releases of active conversations, whatever else happens, as long as its channel is not paused.
   */
  lemma {:induction false} BoundedBypass(s: Slots, ops: seq<Op>, key: Conversation, i: nat)
    requires Sound(s) && Valid(s, ops) && i < |s.high| && s.high[i] == key
    requires Stop(key.channel) !in ops
    requires Freed(s, ops) >= i + 1
    ensures Admitted(s, ops, key)
    decreases |ops|
  {
    ApplySound(s, ops[0]);
    ApplyAdvances(s, ops[0], key, i);
    hide Sound, Apply, Frees;
    var next := Apply(s, ops[0]);
    if !Runs(next.active, key, High) {
      var j: nat :| j < |next.high| && next.high[j] == key && j <= if Frees(s, ops[0]) then i - 1 else i;
      assert Stop(key.channel) !in ops[1..];
      BoundedBypass(next, ops[1..], key, j);
    } else {
      assert Admitted(next, ops[1..], key);
    }
  }

  // ---------------------------------------------------------------- from the request on

  /** The conversation is neither active nor waiting, and its channel runs. */
  predicate Idle(s: Slots, key: Conversation) {
    key !in s.active && key !in s.high && key !in s.low && key.channel !in s.paused
  }

  /** There is room at once: for high priority a slot beside no low-priority work, for low priority everything. */
  ghost predicate Room(s: Slots, priority: Priority) {
    if priority == High then |s.active| < s.max && forall k :: k in s.active ==> s.active[k] == High
    else s.active == map[] && s.high == []
  }

  /**
   A request of an idle conversation gets a slot exactly if there is room; otherwise it stands last in the
   queue of its own priority. Nobody else is touched.
   */
  lemma AskIsPlaced(s: Slots, key: Conversation, priority: Priority)
    requires Sound(s) && Idle(s, key)
    ensures var (t, r) := Acquire(s, key, priority);
      if Room(s, priority) then
        r == Granted && t == s.(active := t.active) && t.active.Keys == s.active.Keys + {key}
        && Runs(t.active, key, priority) && StillRun(s.active, t.active)
      else if priority == High then
        r == Queued && t == s.(high := t.high, asked := t.asked) && t.high == s.high + [key]
      else
        r == Queued && t == s.(low := t.low, asked := t.asked) && t.low == s.low + [key]
  {
    hide Consistent, Justified;
  }

  /** A paused channel is refused, and an active conversation goes on as it is. */
  lemma AskElsewhere(s: Slots, key: Conversation, priority: Priority)
    ensures key.channel in s.paused ==> Acquire(s, key, priority) == (s, Refused)
    ensures key.channel !in s.paused && key in s.active ==> Acquire(s, key, priority) == (s, Granted)
  {}

  lemma AskWaitsLast(s: Slots, key: Conversation)
    requires Sound(s) && Idle(s, key)
    ensures var t := Apply(s, Ask(key, High));
      Runs(t.active, key, High) || (|t.high| == |s.high| + 1 && t.high[|s.high|] == key)
  {
    AskIsPlaced(s, key, High);
    hide Sound, Acquire;
  }

  /**
   Bounded waiting from the request on: an idle conversation that asks for high priority runs with high
   priority after at most one release more than there were high-priority waiters before it.
   */
  lemma HighAskIsServed(s: Slots, key: Conversation, ops: seq<Op>)
    requires Sound(s) && Idle(s, key) && Valid(Apply(s, Ask(key, High)), ops) && Stop(key.channel) !in ops
    requires Freed(Apply(s, Ask(key, High)), ops) >= |s.high| + 1
    ensures Admitted(Apply(s, Ask(key, High)), ops, key)
  {
    AskWaitsLast(s, key);
    ApplySound(s, Ask(key, High));
    var asked := Apply(s, Ask(key, High));
    hide Sound, Apply, Valid, Freed;
    if !Runs(asked.active, key, High) { BoundedBypass(asked, ops, key, |s.high|); }
  }

  // ---------------------------------------------------------------- promotion and pauses

  /** A low waiter that is promoted no longer waits as one: it runs, or it stands last among the high ones. */
  lemma PromotionMoves(s: Slots, key: Conversation)
    requires Sound(s) && key in s.low
    ensures key !in Promote(s, key).low && Advanced(Promote(s, key), key, |s.high|)
  {
    var i := IndexOf(s.low, key);
    var j :| 0 <= j < |s.low| && s.low[j] == key;
    assert i < |s.low|;
    RaiseSound(s, key);
    MovedConsistent(s, key, i);
    var moved := Moved(s, key, i);
    assert moved.high[|s.high|] == key;
    hide Consistent, Justified, Wake, Raised, Cut;
    WakeAdvances(moved, key, |s.high|);
    AdvancedIsNotLow(Promote(s, key), key, |s.high|);
  }

  lemma AdvancedIsNotLow(s: Slots, key: Conversation, position: int)
    requires Sound(s) && Advanced(s, key, position)
    ensures key !in s.low
  {
    hide Pool, Conserved, Justified;
  }

  /** A promoted waiter runs with high priority after at most one release more than there were high waiters. */
  lemma PromotedIsServed(s: Slots, key: Conversation, ops: seq<Op>)
    requires Sound(s) && key in s.low && Valid(Apply(s, Raise(key)), ops) && Stop(key.channel) !in ops
    requires Freed(Apply(s, Raise(key)), ops) >= |s.high| + 1
    ensures Admitted(Apply(s, Raise(key)), ops, key)
  {
    PromotionMoves(s, key);
    ApplySound(s, Raise(key));
    var raised := Apply(s, Raise(key));
    assert raised == Promote(s, key);
    hide Sound, Apply, Promote, Valid, Freed;
    if !Runs(raised.active, key, High) {
      var i: nat :| i < |raised.high| && raised.high[i] == key && i <= |s.high|;
      BoundedBypass(raised, ops, key, i);
    }
  }

  lemma WakeKeepsActive(s: Slots)
    requires Consistent(s)
    ensures StillRun(s.active, Wake(s).active) && Wake(s).paused == s.paused
  {
    WakeHighSound(s);
    WakeLowSound(WakeHigh(s));
    hide Consistent, Sound, WakeHigh, WakeLow;
  }

  /** Promoting an active conversation raises it to high priority. */
  lemma ActiveIsRaised(s: Slots, key: Conversation)
    requires Sound(s) && key in s.active
    ensures Runs(Promote(s, key).active, key, High)
  {
    RaisedConsistent(s, key);
    assert IndexOf(s.low, key) == |s.low| by { hide Pool, Conserved, Justified; }
    WakeKeepsActive(s.(active := Raised(s.active, key)));
    assert Runs(Raised(s.active, key), key, High);
    hide Sound, Consistent, Wake, Raised;
  }

  lemma PausedNobodyWaits(s: Slots, channel: Channel)
    requires Sound(s) && channel in s.paused
    ensures forall k: Conversation :: k in s.high || k in s.low ==> k.channel != channel
    ensures forall k: Conversation, priority: Priority :: k.channel == channel ==>
      Acquire(s, k, priority) == (s, Refused)
  {
    hide Pool, Conserved, Justified;
  }

  /**
   Pausing a channel refuses it from then on and answers all of its waiters; what is active goes on, and high
   waiters of other channels lose no place.
   */
  lemma PauseStops(s: Slots, channel: Channel)
    requires Sound(s)
    ensures var t := Apply(s, Stop(channel));
      && t.paused == s.paused + {channel} && StillRun(s.active, t.active)
      && (forall k: Conversation :: k in t.high || k in t.low ==> k.channel != channel)
      && (forall i: nat :: i < |s.high| && s.high[i].channel != channel ==> Advanced(t, s.high[i], i))
      && (forall k: Conversation, priority: Priority :: k.channel == channel ==>
            Acquire(t, k, priority) == (t, Refused))
  {
    var t := Apply(s, Stop(channel));
    assert t == Pause(s, channel) == Wake(Stopped(s, channel)) && Stopped(s, channel).active == s.active
      && Stopped(s, channel).paused == s.paused + {channel};
    ApplySound(s, Stop(channel));
    StoppedConsistent(s, channel) by { assert Consistent(s); }
    hide *;
    WakeKeepsActive(Stopped(s, channel));
    forall i: nat | i < |s.high| && s.high[i].channel != channel ensures Advanced(t, s.high[i], i) {
      StopAdvances(s, s.high[i], i, channel);
    }
    PausedNobodyWaits(t, channel);
  }

  /** Resuming it undoes the refusal and nothing else. */
  lemma ResumeGoes(s: Slots, channel: Channel)
    ensures var t := Apply(s, Go(channel));
      t == s.(paused := t.paused) && t.paused == s.paused - {channel}
  {}

  lemma {:induction false} WakeHighFrom(s: Slots, k: Conversation)
    requires k in WakeHigh(s).active
    ensures k in s.active || k in s.high
    decreases |s.high|
  {
    if !(s.high == [] || |s.active| >= s.max || LowRuns(s.active)) {
      WakeHighFrom(AdmitFirst(s), k);
      hide LowRuns;
    }
  }

  /** Only waiters are woken. */
  lemma WakeFrom(s: Slots, k: Conversation)
    requires k in Wake(s).active
    ensures k in s.active || k in s.high || k in s.low
  {
    var mid := WakeHigh(s);
    assert mid.low == s.low by { WakeHighLow(s); }
    if k in mid.active { WakeHighFrom(s, k); }
    hide WakeHigh;
  }

  lemma {:induction false} WakeHighLow(s: Slots)
    ensures WakeHigh(s).low == s.low
    decreases |s.high|
  {
    if !(s.high == [] || |s.active| >= s.max || LowRuns(s.active)) { WakeHighLow(AdmitFirst(s)); }
  }

  /** A release gives the slot back, and whoever may run is woken: nobody waits without a reason. */
  lemma ReleaseWakes(s: Slots, key: Conversation)
    requires Sound(s) && key in s.active && key !in s.high && key !in s.low
    ensures var t := Apply(s, Done(key));
      && key !in t.active && StillRun(s.active - {key}, t.active)
      && (s.high != [] ==> Runs(t.active, s.high[0], High))
      && (s.high == [] && s.low != [] && s.active.Keys == {key} ==> Runs(t.active, s.low[0], Low))
  {
    WithoutConsistent(s, key);
    WakeKeepsActive(Without(s, key));
    ApplySound(s, Done(key));
    var t := Apply(s, Done(key));
    assert t == Wake(Without(s, key));
    if key in t.active { WakeFrom(Without(s, key), key); }
    if s.high != [] {
      hide Sound, Consistent, Wake, Without, Justified;
      DoneAdvances(s, s.high[0], 0, key);
      assert Runs(t.active, s.high[0], High);
    } else {
      assert WakeHigh(Without(s, key)) == Without(s, key);
      assert s.active.Keys == {key} ==> Without(s, key).active == map[];
      hide Sound, Consistent;
    }
  }

  // ---------------------------------------------------------------- the scheduler

  /** The scheduler's own maps and arrays, changed in place. */
  class Scheduler {
    const max: nat
    var active: map<Conversation, Priority>
    var high: seq<Conversation>
    var low: seq<Conversation>
    var paused: set<Channel>
    ghost var asked: seq<Conversation>
    ghost var answered: seq<Conversation>

    constructor (requested: int)
      ensures 1 <= max <= 10 && (1 <= requested <= 10 ==> max == requested) && State() == Start(max)
    {
      max := if requested == 0 || requested > 10 then 10 else if requested < 1 then 1 else requested;
      active, high, low, paused := map[], [], [], {};
      asked, answered := [], [];
    }

    ghost function State(): Slots
      reads this
    {
      Slots(max, active, high, low, paused, asked, answered)
    }

    /** `#wakeWaiters`. */
    method WakeWaiters()
      modifies this
      ensures State() == Wake(old(State()))
    {
      while high != [] && |active| < max && !LowRuns(active)
        invariant WakeHigh(State()) == WakeHigh(old(State()))
        decreases |high|
      {
        var key := high[0];
        high := high[1..];
        active := active[key := High];
        answered := answered + [key];
      }
      if |active| == 0 && high == [] && low != [] {
        assert active == map[];
        var key := low[0];
        low := low[1..];
        active := active[key := Low];
        answered := answered + [key];
      }
    }

    /** `#acquire`. */
    method AcquireSlot(key: Conversation, priority: Priority) returns (r: Admission)
      modifies this
      ensures (State(), r) == Acquire(old(State()), key, priority)
      ensures old(Sound(State()) && key !in high && key !in low) ==> Sound(State())
      ensures old(Sound(State()) && key !in active) && r == Granted ==>
        old(high) == [] && (priority == Low ==> old(low) == [])
    {
      ghost var before := State();
      if Sound(before) && key !in high && key !in low { AskSound(before, key, priority); }
      if Sound(before) && key !in active { NoOvertaking(before, key, priority); }
      hide Sound;
      if key.channel in paused { return Refused; }
      if key in active { return Granted; }
      var lowActive := LowRuns(active);
      if priority == High && !lowActive && |active| < max {
        active := active[key := High];
        return Granted;
      }
      if priority == Low && |active| == 0 && |high| == 0 {
        assert active == map[];
        active := active[key := Low];
        return Granted;
      }
      if priority == High { high := high + [key]; } else { low := low + [key]; }
      asked := asked + [key];
      r := Queued;
    }

    /** `#release`. */
    method ReleaseSlot(key: Conversation)
      modifies this
      ensures State() == Release(old(State()), key)
    {
      active := active - {key};
      WakeWaiters();
    }

    /** `#promote`. */
    method PromoteWaiter(key: Conversation)
      modifies this
      ensures State() == Promote(old(State()), key)
    {
      var wasActive := key in active;
      if wasActive { active := active[key := High]; }
      var index := IndexOf(low, key);
      if index < |low| {
        low := Cut(low, index);
        high := high + [key];
        WakeWaiters();
      } else if wasActive {
        WakeWaiters();
      }
    }

    /** One queue of `setChannelEnabled(channel, false)`, searched from its end. */
    method DropWaiters(waiters: seq<Conversation>, channel: Channel)
      returns (kept: seq<Conversation>, ghost dropped: seq<Conversation>)
      ensures kept == Keep(waiters, channel) && dropped == Dropped(waiters, channel)
    {
      kept, dropped := waiters, [];
      var index := |waiters|;
      while index > 0
        invariant 0 <= index <= |waiters| && index <= |kept|
        invariant kept[..index] == waiters[..index] && kept[index..] == Keep(waiters[index..], channel)
        invariant dropped == Dropped(waiters[index..], channel)
      {
        index := index - 1;
        assert waiters[index..] == [waiters[index]] + waiters[index + 1..]
          && waiters[index..][1..] == waiters[index + 1..];
        assert kept[index] == kept[..index + 1][index] == waiters[..index + 1][index];
        ghost var rest := kept[index + 1..];
        ghost var front := kept[..index];
        assert front == kept[..index + 1][..index] == waiters[..index + 1][..index] == waiters[..index];
        if kept[index].channel == channel {
          dropped := dropped + [kept[index]];
          kept := kept[..index] + kept[index + 1..];
          assert kept[index..] == rest && kept[..index] == front;
        } else {
          assert kept[index..] == [kept[index]] + rest;
        }
      }
      assert waiters[0..] == waiters && kept[0..] == kept;
    }

    /** `setChannelEnabled`. */
    method SetChannelEnabled(channel: Channel, enabled: bool)
      modifies this
      ensures State() == if enabled then Resume(old(State()), channel) else Pause(old(State()), channel)
    {
      if enabled {
        paused := paused - {channel};
      } else {
        paused := paused + {channel};
        ghost var dropped;
        high, dropped := DropWaiters(high, channel);
        answered := answered + dropped;
        low, dropped := DropWaiters(low, channel);
        answered := answered + dropped;
        WakeWaiters();
      }
    }
  }
}
