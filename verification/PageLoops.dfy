/** The loops of `commitPollPage` do what the recursive definitions say. */
module PageLoops {
  import opened Basics
  import opened Tables
  import opened PageOrder
  import opened Ledger
  import opened Inbox
  import opened PageCommit
  import opened PageProofs
  import opened PageTheorems
  import opened Invariants

  // ---------------------------------------------------------------- validation

  /** The first invalid entry decides the error. */
  lemma {:induction false} PageErrorStays(entries: seq<Entry>, conv: Conversation, cursor: string, n: nat)
    requires 0 < n <= |entries| && PageError(entries[..n], conv, cursor).Some?
    ensures PageError(entries, conv, cursor) == PageError(entries[..n], conv, cursor)
    decreases |entries|
  {
    if n < |entries| {
      var init := entries[..|entries| - 1];
      assert init[..n] == entries[..n];
      PageErrorStays(init, conv, cursor, n);
    } else {
      assert entries[..n] == entries;
    }
  }

  // ---------------------------------------------------------------- the inbox

  /** Arrival `i` is stored neither before nor by an earlier arrival. */
  ghost predicate IsNew(messages: map<MessageKey, Inbound>, arrivals: seq<Arrival>, i: nat)
    requires i < |arrivals|
  {
    arrivals[i].key !in messages && forall j :: 0 <= j < i ==> arrivals[j].key != arrivals[i].key
  }

  /** What is stored once a prefix of the arrivals is inserted. */
  lemma PrefixStored(db: Db, arrivals: seq<Arrival>, i: nat, now: nat)
    requires i < |arrivals| && SameIdentity(db, arrivals[..i])
    ensures var mid, a := InsertAll(db, arrivals[..i], now), arrivals[i];
      && (a.key !in mid.messages <==> IsNew(db.messages, arrivals, i))
      && (a.key in mid.messages && a.key in db.messages ==> mid.messages[a.key] == db.messages[a.key])
      && (a.key in mid.messages && a.key !in db.messages ==>
            exists j :: 0 <= j < i && arrivals[j].key == a.key && mid.messages[a.key].conv == arrivals[j].conv)
  {
    var mid, a := InsertAll(db, arrivals[..i], now), arrivals[i];
    InsertAllKeys(db, arrivals[..i], now);
    InsertAllGrows(db, arrivals[..i], now);
    if a.key in mid.messages && a.key !in db.messages {
      var j :| 0 <= j < i && arrivals[..i][j].key == a.key;
      InsertAllConv(db, arrivals[..i], now, j);
      assert arrivals[j].key == a.key;
    }
    if a.key !in mid.messages {
      forall j | 0 <= j < i ensures arrivals[j].key != a.key { assert arrivals[..i][j] == arrivals[j]; }
    }
  }

  /** What the next arrival finds, and whether it belongs. */
  lemma InsertedSoFar(db: Db, arrivals: seq<Arrival>, i: nat, now: nat)
    requires i < |arrivals| && SameIdentity(db, arrivals[..i])
    ensures var mid, a := InsertAll(db, arrivals[..i], now), arrivals[i];
      && InsertAll(db, arrivals[..i + 1], now) == InsertOne(mid, a, now)
      && (a.key !in mid.messages <==> IsNew(db.messages, arrivals, i))
      && a.key in InsertOne(mid, a, now).messages
      && (InsertOne(mid, a, now).messages[a.key].conv == a.conv ==> SameIdentity(db, arrivals[..i + 1]))
      && (InsertOne(mid, a, now).messages[a.key].conv != a.conv ==> !SameIdentity(db, arrivals))
  {
    var mid, a := InsertAll(db, arrivals[..i], now), arrivals[i];
    assert arrivals[..i + 1][..i] == arrivals[..i];
    PrefixStored(db, arrivals, i, now);
    if a.key in mid.messages && mid.messages[a.key].conv != a.conv {
      NotSameIdentity(db, arrivals, i, mid.messages[a.key].conv);
    }
    hide IsNew, SameIdentity;
    if a.key in mid.messages ==> mid.messages[a.key].conv == a.conv { SameIdentityMore(db, arrivals, i, mid, now); }
  }

  lemma NotSameIdentity(db: Db, arrivals: seq<Arrival>, i: nat, conv: Conversation)
    requires i < |arrivals| && conv != arrivals[i].conv
    requires (arrivals[i].key in db.messages && db.messages[arrivals[i].key].conv == conv)
      || exists j :: 0 <= j < i && arrivals[j].key == arrivals[i].key && arrivals[j].conv == conv
    ensures !SameIdentity(db, arrivals)
  {}

  lemma SameIdentityMore(db: Db, arrivals: seq<Arrival>, i: nat, mid: Db, now: nat)
    requires i < |arrivals| && SameIdentity(db, arrivals[..i]) && mid == InsertAll(db, arrivals[..i], now)
    requires arrivals[i].key in mid.messages ==> mid.messages[arrivals[i].key].conv == arrivals[i].conv
    ensures SameIdentity(db, arrivals[..i + 1])
  {
    var some, a := arrivals[..i + 1], arrivals[i];
    InsertAllGrows(db, arrivals[..i], now);
    forall j | 0 <= j < i && some[j].key == a.key ensures some[j].conv == a.conv {
      assert arrivals[..i][j] == some[j];
      InsertAllConv(db, arrivals[..i], now, j);
    }
    forall j, k | 0 <= j < k < |some| && some[j].key == some[k].key ensures some[j].conv == some[k].conv {
      if k < i { assert arrivals[..i][j] == some[j] && arrivals[..i][k] == some[k]; }
    }
    forall j | 0 <= j < |some| && some[j].key in db.messages ensures db.messages[some[j].key].conv == some[j].conv {
      if j < i { assert arrivals[..i][j] == some[j]; }
    }
  }

  /** The flags of the insertion tell which entries are fresh. */
  lemma FreshArrivals(messages: map<MessageKey, Inbound>, page: Page)
    ensures |Arrivals(page)| == |page.entries|
    ensures forall i :: 0 <= i < |page.entries| ==>
      (IsNew(messages, Arrivals(page), i) <==> IsFresh(messages, page.entries, i))
  {
    forall i | 0 <= i < |page.entries|
      ensures IsNew(messages, Arrivals(page), i) <==> IsFresh(messages, page.entries, i)
    {
      assert forall j :: 0 <= j <= i ==> Arrivals(page)[j].key == KeyOf(page.entries[j]);
    }
  }

  // ---------------------------------------------------------------- windows

  /** The first failing entry decides the outcome. */
  lemma {:induction false} InsertWindowsStays(db0: Db, db: Db, page: Page, i: nat, n: nat, now: nat)
    requires i <= n <= |page.entries|
    ensures InsertWindows(db0, db, page, i, now).Rollback? ==>
      InsertWindows(db0, db, page, n, now) == InsertWindows(db0, db, page, i, now)
  {
    hide InsertWindow, KnownDuplicate, IsFresh;
    if i < n { InsertWindowsStays(db0, db, page, i, n - 1, now); }
  }

  lemma ImagesElsewhere(db: Db, e: Entry)
    ensures AddImages(db, e).messages == db.messages
  {}

  /** The loop over the first `i` entries has ended with `r`, in the state `rows` unless it failed. */
  ghost predicate SoFar(db0: Db, db: Db, page: Page, i: nat, now: nat, rows: Db, r: Result<seq<WindowId>, Error>)
    requires i <= |page.entries|
  {
    var txn := InsertWindows(db0, db, page, i, now);
    if txn.Commit? then r == Ok(txn.value) && rows == txn.db else r == Err(txn.error)
  }

  lemma FailureStays(db0: Db, db: Db, page: Page, i: nat, now: nat, rows: Db, r: Result<seq<WindowId>, Error>)
    requires i <= |page.entries| && SoFar(db0, db, page, i, now, rows, r) && r.Err?
    ensures SoFar(db0, db, page, |page.entries|, now, rows, r)
  {
    InsertWindowsStays(db0, db, page, i, |page.entries|, now);
  }

  /** The state of the loop before entry `i`. */
  ghost predicate PageLoop(db0: Db, db: Db, page: Page, i: nat, now: nat, rows: Db, ids: seq<WindowId>,
                           added: seq<Entry>,
                           pageSources: set<MessageKey>)
    requires i <= |page.entries|
  {
    && SoFar(db0, db, page, i, now, rows, Ok(ids))
    && added == AddedEntries(db0.messages, page.entries, i) && pageSources == KeysOf(added)
  }

  lemma PageDone(db0: Db, db: Db, page: Page, now: nat, rows: Db, ids: seq<WindowId>, added: seq<Entry>,
                 pageSources: set<MessageKey>)
    requires PageLoop(db0, db, page, |page.entries|, now, rows, ids, added, pageSources)
    ensures SoFar(db0, db, page, |page.entries|, now, rows, Ok(ids))
    ensures added == AddedEntries(db0.messages, page.entries, |page.entries|)
  {}

  lemma BeginPage(db0: Db, db: Db, page: Page, now: nat)
    ensures PageLoop(db0, db, page, 0, now, db, [], [], {})
  {}

  lemma AddedMore(messages: map<MessageKey, Inbound>, entries: seq<Entry>, i: nat)
    requires i < |entries|
    ensures var added, e := AddedEntries(messages, entries, i), entries[i];
      && AddedEntries(messages, entries, i + 1) == (if IsFresh(messages, entries, i) then added + [e] else added)
      && KeysOf(added + [e]) == KeysOf(added) + {KeyOf(e)}
  {
    KeysOfSnoc(AddedEntries(messages, entries, i), entries[i]);
  }

  lemma KeysOfSnoc(added: seq<Entry>, e: Entry)
    ensures KeysOf(added + [e]) == KeysOf(added) + {KeyOf(e)}
  {
    assert e in added + [e];
    assert forall x :: x in added ==> x in added + [e];
  }

  // ---------------------------------------------------------------- absorbing

  function Without(keys: set<MessageKey>, open: Option<MessageKey>): set<MessageKey> {
    if open.Some? then keys - {open.value} else keys
  }

  lemma AbsorbNone(messages: map<MessageKey, Inbound>, open: Option<MessageKey>, now: nat)
    ensures Absorb(messages, Without(KeysOf([]), open), now) == messages
  {}

  lemma AbsorbOneMore(messages: map<MessageKey, Inbound>, keys: set<MessageKey>, k: MessageKey,
                      open: Option<MessageKey>, now: nat)
    ensures Absorb(messages, Without(keys + {k}, open), now)
      == if open == Some(k) then Absorb(messages, Without(keys, open), now)
         else Absorb(Absorb(messages, Without(keys, open), now), {k}, now)
  {
    if open == Some(k) { assert Without(keys + {k}, open) == Without(keys, open); }
  }

  lemma KeyStays(db: Db, added: seq<Entry>, key: MessageKey, now: nat)
    requires key in db.messages
    ensures var absorbed := Absorb(db.messages, KeysOf(added) - {key}, now);
      key in absorbed && key in Absorb(absorbed, BacklogKeys(absorbed, key), now)
  {}

  /** What the merge reads after the page's messages were absorbed is what was stored before. */
  lemma BacklogBefore(db: Db, added: seq<Entry>, key: MessageKey, now: nat)
    requires key in db.messages
    ensures var absorbed := Absorb(db.messages, KeysOf(added) - {key}, now);
      var keys := BacklogKeys(absorbed, key);
      var backlog := InOrder(db.inbox, db.messages, keys, |db.inbox|);
      && InOrder(db.inbox, absorbed, keys, |db.inbox|) == backlog
      && (forall k :: k in backlog ==> k in db.messages && k in absorbed)
      && StoredSummaries(absorbed, backlog) == StoredSummaries(db.messages, backlog)
      && (forall chosen {:trigger InOrder(db.inbox, Absorb(absorbed, keys, now), chosen, |db.inbox|)} ::
            InOrder(db.inbox, Absorb(absorbed, keys, now), chosen, |db.inbox|) ==
              InOrder(db.inbox, db.messages, chosen, |db.inbox|))
  {
    var absorbed := Absorb(db.messages, KeysOf(added) - {key}, now);
    var keys := BacklogKeys(absorbed, key);
    var after := Absorb(absorbed, keys, now);
    InOrderSameSeq(db.inbox, db.messages, absorbed, keys, |db.inbox|);
    InOrderIn(db.inbox, db.messages, keys, |db.inbox|);
    var backlog := InOrder(db.inbox, db.messages, keys, |db.inbox|);
    forall k | k in backlog ensures k in db.messages && k in absorbed
      && absorbed[k].payload == db.messages[k].payload {}
    SameSummaries(db.messages, absorbed, backlog);
    forall chosen
      ensures InOrder(db.inbox, after, chosen, |db.inbox|) == InOrder(db.inbox, db.messages, chosen, |db.inbox|)
    {
      InOrderSameSeq(db.inbox, db.messages, after, chosen, |db.inbox|);
    }
  }
}
