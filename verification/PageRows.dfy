/** What a committed page stores: the rows of its messages, whether they are live, and their reply windows. */
module PageRows {
  import opened Basics
  import opened Tables
  import opened PageOrder
  import opened Ledger
  import opened Inbox
  import opened PageCommit
  import opened Invariants
  import opened InboxProofs
  import opened LedgerProofs
  import opened PageProofs
  import opened PageTheorems

  // ---------------------------------------------------------------- rows of messages

  /** Entry `i` is the first of the page with its key, and its key was not stored before. */
  predicate Inserts(db: Db, page: Page, i: nat) {
    && i < |page.entries|
    && KeyOf(page.entries[i]) !in db.messages
    && forall j :: 0 <= j < i ==> KeyOf(page.entries[j]) != KeyOf(page.entries[i])
  }

  /** The page is not a catch-up as a whole, and the message was not sent before the moment it names. */
  predicate IsLive(page: Page, e: Entry) {
    !page.deferred && (page.deferredBefore.None? || e.sentAt >= page.deferredBefore.value)
  }

  lemma {:induction false} InsertAllWhole(db: Db, arrivals: seq<Arrival>, now: nat, i: nat)
    requires i < |arrivals| && arrivals[i].key !in db.messages
    requires forall j :: 0 <= j < i ==> arrivals[j].key != arrivals[i].key
    ensures var after := InsertAll(db, arrivals, now);
      && arrivals[i].key in after.messages
      && after.messages[arrivals[i].key] == ReceivedRow(after.messages[arrivals[i].key].inboxSeq, arrivals[i], now)
  {
    var init := arrivals[..|arrivals| - 1];
    if i < |init| {
      InsertAllWhole(db, init, now, i);
    } else {
      InsertAllKeys(db, init, now);
    }
  }

  /** The row of an inserted entry before the page is merged. */
  lemma EntryStored(db: Db, page: Page, now: nat, i: nat)
    requires Inserts(db, page, i)
    ensures var stored, e := InsertAll(db, Arrivals(page), now), page.entries[i];
      && KeyOf(e) in stored.messages
      && stored.messages[KeyOf(e)] == Inbound(stored.messages[KeyOf(e)].inboxSeq, e.conv, true, Received,
           !IsLive(page, e), None, "", Some(e.payload), now)
  {
    var arrivals := Arrivals(page);
    forall j | 0 <= j < i ensures arrivals[j].key != arrivals[i].key {}
    InsertAllWhole(db, arrivals, now, i);
    hide InsertAll;
  }

  /** Merging changes the status and the payload of a row, and an absorbed row is no longer deferred. */
  ghost predicate Merged(m: Inbound, m': Inbound) {
    && m' == m.(status := m'.status, deferred := m'.deferred, payload := m'.payload, updatedAt := m'.updatedAt)
    && ((m'.status == m.status && m'.deferred == m.deferred)
        || (m'.status == Absorbed && !m'.deferred && m'.payload.None?))
  }

  lemma AbsorbMerges(messages: map<MessageKey, Inbound>, keys: set<MessageKey>, now: nat)
    ensures Absorb(messages, keys, now).Keys == messages.Keys
    ensures forall k :: k in messages ==> AbsorbedOrSame(messages[k], Absorb(messages, keys, now)[k])
    ensures forall k :: k in messages ==> Merged(messages[k], Absorb(messages, keys, now)[k])
  {}

  /** The message is untouched, or it waited and has been absorbed. */
  ghost predicate AbsorbedOrSame(m: Inbound, m': Inbound) {
    || m' == m
    || (m.status == Received
        && m' == m.(status := Absorbed, deferred := false, payload := None, updatedAt := m'.updatedAt))
  }

  lemma DeliverMerges(db: Db, added: seq<Entry>, open: MessageKey, payload: Payload, now: nat)
    requires open in db.messages
    ensures var after := Deliver(db, added, open, payload, now);
      && after.inbox == db.inbox && after.messages.Keys == db.messages.Keys && after.secrets == db.secrets
      && forall k :: k in db.messages ==> Merged(db.messages[k], after.messages[k])
  {
    hide *;
    AbsorbMerges(db.messages, KeysOf(added) - {open}, now);
    var absorbed := Absorb(db.messages, KeysOf(added) - {open}, now);
    AbsorbMerges(absorbed, BacklogKeys(absorbed, open), now);
    var others := Absorb(absorbed, BacklogKeys(absorbed, open), now);
    DeliverShape(db, added, open, payload, now);
    DeliverInbox(db, added, open, payload, now);
    DeliverSecrets(db, added, open, payload, now);
    KeyUntouched(db, added, open, now);
    var after := Deliver(db, added, open, payload, now);
    forall k | k in db.messages ensures Merged(db.messages[k], after.messages[k]) {
      if k == open {
        OnlyPayload(db.messages[k], after.messages[k]);
      } else {
        AbsorbedTwice(db.messages[k], absorbed[k], others[k]);
      }
    }
  }

  lemma DeliverSecrets(db: Db, added: seq<Entry>, open: MessageKey, payload: Payload, now: nat)
    requires open in db.messages
    ensures Deliver(db, added, open, payload, now).secrets == db.secrets
  {}

  lemma OnlyPayload(m: Inbound, m': Inbound)
    requires m' == m.(payload := m'.payload, updatedAt := m'.updatedAt)
    ensures Merged(m, m')
  {}

  lemma AbsorbedTwice(m: Inbound, m': Inbound, m'': Inbound)
    requires AbsorbedOrSame(m, m') && AbsorbedOrSame(m', m'')
    ensures Merged(m, m'')
  {}

  /** A message that waits carries the text of its entry; its attachments are counted anew once images are merged. */
  ghost predicate Carries(after: Db, e: Entry)
    requires KeyOf(e) in after.messages
  {
    var payload := after.messages[KeyOf(e)].payload;
    payload.Some? ==>
      && payload.value.body == e.payload.body
      && (payload.value == e.payload
          || payload.value.attachments == if KeyOf(e) in after.images then |after.images[KeyOf(e)]| else 0)
  }

  lemma DeliverCarries(db: Db, added: seq<Entry>, d: Entry, now: nat, e: Entry)
    requires d in added && e in added && KeyOf(d) in db.messages && KeyOf(e) in db.messages
    requires db.messages[KeyOf(e)].payload == Some(e.payload) && (KeyOf(e) == KeyOf(d) ==> e.payload == d.payload)
    ensures var after := Deliver(db, added, KeyOf(d), d.payload, now);
      KeyOf(e) in after.messages && Carries(after, e)
  {
    var keys := KeysOf(added) - {KeyOf(d)};
    var absorbed := Absorb(db.messages, keys, now);
    AbsorbKeepsPayload(db.messages, keys, now, KeyOf(e));
    AbsorbKeepsPayload(absorbed, BacklogKeys(absorbed, KeyOf(d)), now, KeyOf(e));
    hide Absorb, BacklogKeys, InOrder, StoredSummaries, PageSummaries, LatestImages, Join, KeysOf, Take, Reverse,
      ImageNote;
  }

  lemma AbsorbKeepsPayload(messages: map<MessageKey, Inbound>, keys: set<MessageKey>, now: nat, k: MessageKey)
    requires k in messages
    ensures var after := Absorb(messages, keys, now);
      k in after && (after[k].payload == messages[k].payload || after[k].payload.None?)
  {}

  lemma FinishCarries(db: Db, conv: Conversation, added: seq<Entry>, now: nat, e: Entry)
    requires e in added && KeyOf(e) in db.messages
    requires forall d :: d in added ==> KeyOf(d) in db.messages && db.messages[KeyOf(d)].payload == Some(d.payload)
    ensures var after := Finish(db, conv, added, now); KeyOf(e) in after.messages && Carries(after, e)
  {
    hide Deliver, Absorb;
    var d := Deliverable(db, conv, added);
    DeliverableFacts(db, conv, added);
    hide Deliverable;
    if d.Some? {
      DeliverCarries(db, added, d.value, now, e);
    } else {
      AbsorbKeepsPayload(db.messages, KeysOf(added), now, KeyOf(e));
    }
  }

  lemma FinishMerges(db: Db, conv: Conversation, added: seq<Entry>, now: nat)
    ensures var after := Finish(db, conv, added, now);
      && after.inbox == db.inbox && after.messages.Keys == db.messages.Keys && after.secrets == db.secrets
      && forall k :: k in db.messages ==> Merged(db.messages[k], after.messages[k])
  {
    hide Deliver, Absorb, Merged, Deliverable;
    var d := Deliverable(db, conv, added);
    if d.Some? && KeyOf(d.value) in db.messages {
      DeliverMerges(db, added, KeyOf(d.value), d.value.payload, now);
    } else {
      AbsorbMerges(db.messages, KeysOf(added), now);
    }
  }

  /** The page's tables before its messages are merged. */
  lemma PageStages(db: Db, page: Page, now: nat)
    requires Inv(db) && CommitPage(db, page, now).Commit?
    ensures page.account in db.accounts && PageReady(db, InsertAll(db, Arrivals(page), now), page)
    ensures var stored := InsertAll(db, Arrivals(page), now);
      var windowed := InsertWindows(db, stored, page, |page.entries|, now);
      var after := CommitPage(db, page, now);
      && windowed.Commit?
      && windowed.db.messages == stored.messages && windowed.db.inbox == stored.inbox
      && after.db.messages.Keys == stored.messages.Keys && after.db.inbox == stored.inbox
      && (forall k :: k in stored.messages ==> Merged(stored.messages[k], after.db.messages[k]))
      && after.db.windows == windowed.db.windows && after.db.nextWindow == windowed.db.nextWindow
      && after.db.secrets == windowed.db.secrets
      && after.value.windows == windowed.value
  {
    hide Inv, SameIdentity, PageError, InsertAll, InsertWindows, AddedEntries, Finish, Deliverable, Merged;
    StoredReady(db, page, now);
    var stored := InsertAll(db, Arrivals(page), now);
    InsertWindowsKeeps(db, stored, page, |page.entries|, now);
    var windowed := InsertWindows(db, stored, page, |page.entries|, now).db;
    var moved := MoveCursor(windowed, page.account, page.nextCursor);
    FinishMerges(moved, ConversationOf(db, page.account), AddedEntries(db.messages, page.entries, |page.entries|), now);
    FinishWindows(moved, ConversationOf(db, page.account), AddedEntries(db.messages, page.entries, |page.entries|),
      now);
  }

  /**
   Every inserted message belongs to the owner's conversation, comes from the customer, and is stored as
   deferred exactly if the page or the time it was sent makes it so; once absorbed it holds nothing.
   */
  lemma InsertedRow(db: Db, page: Page, now: nat, i: nat)
    requires Inv(db) && CommitPage(db, page, now).Commit? && Inserts(db, page, i)
    ensures var after, e := CommitPage(db, page, now).db, page.entries[i];
      && KeyOf(e) in after.messages
      && var m := after.messages[KeyOf(e)];
         && m.conv == ConversationOf(db, page.account) == e.conv
         && m.customer && m.primary.None? && m.turnId == "" && m.inboxSeq > |db.inbox|
         && (m.status == Received || m.status == Absorbed)
         && (m.status == Received ==> (m.deferred <==> !IsLive(page, e)))
         && (m.status == Absorbed ==> !m.deferred && m.payload.None?)
  {
    PageStages(db, page, now);
    EntryStored(db, page, now, i);
    InsertAllGrows(db, Arrivals(page), now);
    hide Inv, CommitPage, InsertAll, IsLive;
    var stored := InsertAll(db, Arrivals(page), now);
    assert page.entries[i].conv == ConversationOf(stored, page.account);
    assert stored.accounts == db.accounts;
  }

  lemma InsertedCarries(db: Db, page: Page, now: nat, e: Entry)
    requires Inv(db) && CommitPage(db, page, now).Commit?
    requires e in AddedEntries(db.messages, page.entries, |page.entries|)
    ensures var after := CommitPage(db, page, now).db; KeyOf(e) in after.messages && Carries(after, e)
  {
    PageStages(db, page, now);
    StoredAfterInsert(db, page, now) by { hide InsertAll, InsertWindows, PageError, Inv, SameIdentity, AddedEntries; }
    var added, stored := AddedEntries(db.messages, page.entries, |page.entries|), InsertAll(db, Arrivals(page), now);
    assert forall d :: d in added ==>
      KeyOf(d) in stored.messages && stored.messages[KeyOf(d)].payload == Some(d.payload) by {
      hide CommitPage, InsertAll, AddedEntries, Inv, SameIdentity;
      assert forall d :: d in added ==> KeyOf(d) in KeysOf(added);
    }
    hide Inv, SameIdentity, PageError, InsertAll, InsertWindows, AddedEntries, Finish, Deliverable, Merged, Stored;
    var windowed := InsertWindows(db, stored, page, |page.entries|, now).db;
    FinishCarries(MoveCursor(windowed, page.account, page.nextCursor), ConversationOf(db, page.account), added, now, e);
  }

  /** The result names the delivered message exactly if it is live; a deferred one is counted, and carries its text. */
  lemma LiveIsReturned(db: Db, page: Page, now: nat, i: nat)
    requires Inv(db) && CommitPage(db, page, now).Commit? && Inserts(db, page, i)
    requires var open := OpenWindow(CommitPage(db, page, now).db, ConversationOf(db, page.account));
      open.Some? && CommitPage(db, page, now).db.windows[open.value].source == KeyOf(page.entries[i])
    ensures var after, result, e := CommitPage(db, page, now).db, CommitPage(db, page, now).value, page.entries[i];
      && KeyOf(e) in after.messages && after.messages[KeyOf(e)].status == Received
      && after.messages[KeyOf(e)].payload.Some? && Carries(after, e)
      && (if !page.deferred && (page.deferredBefore.None? || e.sentAt >= page.deferredBefore.value)
          then result.inserted == [KeyOf(e)] && result.deferredCount == 0 && !after.messages[KeyOf(e)].deferred
          else result.inserted == [] && result.deferredCount == 1 && after.messages[KeyOf(e)].deferred)
  {
    var key := KeyOf(page.entries[i]);
    AddedCovers(db.messages, page.entries, |page.entries|, i);
    CommitDelivers(db, page, now);
    AddedContains(db.messages, page.entries, |page.entries|, i);
    InsertedCarries(db, page, now, page.entries[i]);
    InsertedRow(db, page, now, i);
    var after := CommitPage(db, page, now).db;
    hide Inv, CommitPage, AddedEntries, KeysOf, NothingLost;
    assert Waiting(after, ConversationOf(db, page.account)) == {key};
    assert key in Waiting(after, ConversationOf(db, page.account));
  }

  // ---------------------------------------------------------------- order of arrival

  function KeySeq(entries: seq<Entry>): seq<MessageKey> {
    seq(|entries|, i requires 0 <= i < |entries| => KeyOf(entries[i]))
  }

  /** An entry is stored already by those before it exactly if it is not fresh. */
  lemma StoredBefore(db: Db, page: Page, n: nat, now: nat)
    requires n < |page.entries|
    ensures KeyOf(page.entries[n]) in InsertAll(db, Arrivals(page)[..n], now).messages
      <==> !IsFresh(db.messages, page.entries, n)
  {
    var init, key := Arrivals(page)[..n], KeyOf(page.entries[n]);
    InsertAllKeys(db, init, now);
    hide InsertAll;
    if j: nat :| j < n && KeyOf(page.entries[j]) == key { assert init[j].key == key; }
    if key in InsertAll(db, init, now).messages && key !in db.messages {
      var j :| 0 <= j < |init| && init[j].key == key;
      assert KeyOf(page.entries[j]) == key;
    }
  }

  lemma InsertAllSnoc(db: Db, page: Page, n: nat, now: nat)
    requires n < |page.entries|
    ensures InsertAll(db, Arrivals(page)[..n + 1], now)
         == InsertOne(InsertAll(db, Arrivals(page)[..n], now), ToArrival(page, page.entries[n]), now)
  {
    assert Arrivals(page)[..n + 1][..n] == Arrivals(page)[..n];
  }

  lemma KeySeqSnoc(entries: seq<Entry>, e: Entry)
    ensures KeySeq(entries + [e]) == KeySeq(entries) + [KeyOf(e)]
  {}

  /** The first `n` arrivals of the page. */
  function FirstArrivals(page: Page, n: nat): seq<Arrival>
    requires n <= |page.entries|
  {
    Arrivals(page)[..n]
  }

  lemma InboxSnoc(db: Db, page: Page, n: nat, now: nat)
    requires n < |page.entries|
    requires InsertAll(db, FirstArrivals(page, n), now).inbox
          == db.inbox + KeySeq(AddedEntries(db.messages, page.entries, n))
    ensures InsertAll(db, FirstArrivals(page, n + 1), now).inbox
         == db.inbox + KeySeq(AddedEntries(db.messages, page.entries, n + 1))
  {
    StoredBefore(db, page, n, now);
    InsertAllSnoc(db, page, n, now);
    InsertOneInbox(InsertAll(db, FirstArrivals(page, n), now), page, page.entries[n], now);
    KeySeqSnoc(AddedEntries(db.messages, page.entries, n), page.entries[n]);
    hide InsertAll, KeySeq, IsFresh, Arrivals, InsertOne, KeyOf;
  }

  lemma {:induction false} InboxGrows(db: Db, page: Page, n: nat, now: nat)
    requires n <= |page.entries|
    ensures InsertAll(db, FirstArrivals(page, n), now).inbox
         == db.inbox + KeySeq(AddedEntries(db.messages, page.entries, n))
  {
    if n > 0 {
      hide InsertAll, KeySeq, IsFresh, FirstArrivals, AddedEntries, KeyOf;
      InboxGrows(db, page, n - 1, now);
      InboxSnoc(db, page, n - 1, now);
    } else {
      assert FirstArrivals(page, 0) == [];
    }
  }

  lemma InsertOneInbox(db: Db, page: Page, e: Entry, now: nat)
    ensures InsertOne(db, ToArrival(page, e), now).inbox
         == if KeyOf(e) in db.messages then db.inbox else db.inbox + [KeyOf(e)]
  {}

  /** The inserted messages stand in the inbox behind all others, in the order of the page. */
  lemma InsertedInOrder(db: Db, page: Page, now: nat)
    requires Inv(db) && CommitPage(db, page, now).Commit?
    ensures CommitPage(db, page, now).db.inbox
         == db.inbox + KeySeq(AddedEntries(db.messages, page.entries, |page.entries|))
  {
    PageStages(db, page, now);
    InboxGrows(db, page, |page.entries|, now);
    assert Arrivals(page)[..|page.entries|] == Arrivals(page);
    hide Inv, CommitPage, InsertAll, AddedEntries;
  }

  // ---------------------------------------------------------------- reply windows

  /** A new window: it belongs to the entry, lasts a day from when it was sent, and has not been used. */
  ghost predicate Issued(w: Window, e: Entry, generation: nat, inboxSeq: nat, now: nat) {
    && w.conv == e.conv && w.source == KeyOf(e) && w.sourceSeq == inboxSeq && w.generation == generation
    && w.providerSeq == e.providerSeq && w.issuedAt == e.sentAt
    && w.expiresAt == (if e.sentAt < now then e.sentAt else now) + 86_400_000
    && w.next == 0 && w.reserved == 0 && w.transmitted == 0
    && (w.state == Open || w.state == Superseded)
  }

  /** A window may be superseded, and then holds no reservation. */
  ghost predicate Aged(w: Window, w': Window) {
    || w' == w
    || (w.state == Open && w' == w.(state := Superseded, reserved := 0, updatedAt := w'.updatedAt))
  }

  ghost predicate AllAged(windows: map<WindowId, Window>, windows': map<WindowId, Window>) {
    forall w :: w in windows ==> w in windows' && Aged(windows[w], windows'[w])
  }

  /** The windows of the added entries, numbered in page order. */
  ghost predicate AllIssued(windows: map<WindowId, Window>, messages: map<MessageKey, Inbound>, first: nat,
                            added: seq<Entry>, ids: seq<WindowId>, generation: nat, now: nat) {
    && |ids| == |added|
    && forall i :: 0 <= i < |ids| ==>
         && ids[i] == first + i && ids[i] in windows && KeyOf(added[i]) in messages
         && Issued(windows[ids[i]], added[i], generation, messages[KeyOf(added[i])].inboxSeq, now)
  }

  lemma SupersedeAges(db: Db, conv: Conversation, now: nat)
    requires Inv(db)
    ensures var ready := Supersede(db, conv, now);
      && AllAged(db.windows, ready.windows) && ready.windows.Keys == db.windows.Keys
      && ready.nextWindow == db.nextWindow && ready.messages == db.messages
      && (Secreted(db.windows, db.secrets) ==> Secreted(ready.windows, ready.secrets))
  {
    OpenWindowFacts(db, conv);
    AgedNot(db.windows);
    hide Inv, RetireWindows, AllAged, Secreted;
    if OpenWindow(db, conv).Some? { RetireAges(db, OpenWindow(db, conv).value, now); }
  }

  lemma RetireAges(db: Db, w: WindowId, now: nat)
    ensures var ready := RetireWindows(db, {w}, Superseded, SupersededByNewer, now);
      && AllAged(db.windows, ready.windows) && ready.windows.Keys == db.windows.Keys
      && ready.nextWindow == db.nextWindow && ready.messages == db.messages
      && (Secreted(db.windows, db.secrets) ==> Secreted(ready.windows, ready.secrets))
  {
    hide FailPending, CloseSessions, WindowAttempts, WindowSessions;
  }

  lemma AddWindowIssues(db: Db, w: Window)
    requires db.nextWindow !in db.windows
    ensures var after := AddWindow(db, w);
      && after.windows == db.windows[db.nextWindow := w] && AllAged(db.windows, after.windows)
      && (Secreted(db.windows, db.secrets) ==> Secreted(after.windows, after.secrets))
      && after.nextWindow == db.nextWindow + 1
  {}

  /** Every open window has its context token. */
  ghost predicate Secreted(windows: map<WindowId, Window>, secrets: set<WindowId>) {
    forall w :: w in windows && windows[w].state == Open ==> w in secrets
  }

  lemma NewIsIssued(generation: nat, e: Entry, inboxSeq: nat, opens: bool, now: nat)
    ensures Issued(NewWindow(generation, e, inboxSeq, if opens then Open else Superseded, now), e, generation, inboxSeq,
                   now)
  {}

  lemma InsertWindowIssues(db: Db, generation: nat, e: Entry, pageSources: set<MessageKey>, now: nat)
    requires Inv(db) && KeyOf(e) in db.messages && InsertWindow(db, generation, e, pageSources, now).Commit?
    ensures var txn := InsertWindow(db, generation, e, pageSources, now);
      && txn.value == db.nextWindow && txn.db.nextWindow == db.nextWindow + 1 && txn.value in txn.db.windows
      && Issued(txn.db.windows[txn.value], e, generation, db.messages[KeyOf(e)].inboxSeq, now)
      && AllAged(db.windows, txn.db.windows)
      && (Secreted(db.windows, db.secrets) ==> Secreted(txn.db.windows, txn.db.secrets))
  {
    WindowBound(db);
    SupersedeAges(db, e.conv, now);
    AgedNot(db.windows);
    hide Inv, BecomesOpen, Supersede, AddWindow, NewWindow, Aged, Issued, Secreted;
    var opens := BecomesOpen(db, e, pageSources);
    var ready := if opens then Supersede(db, e.conv, now) else db;
    var w := NewWindow(generation, e, db.messages[KeyOf(e)].inboxSeq, if opens then Open else Superseded, now);
    NewIsIssued(generation, e, db.messages[KeyOf(e)].inboxSeq, opens, now);
    AddWindowIssues(ready, w);
    hide AllAged;
    AgedTwice(db.windows, ready.windows, AddWindow(ready, w).windows);
  }

  lemma AgedTwice(one: map<WindowId, Window>, two: map<WindowId, Window>, three: map<WindowId, Window>)
    requires AllAged(one, two) && AllAged(two, three)
    ensures AllAged(one, three)
  {}

  lemma IssuedOneMore(windows: map<WindowId, Window>, windows': map<WindowId, Window>,
                      messages: map<MessageKey, Inbound>, first: nat, added: seq<Entry>, ids: seq<WindowId>,
                      generation: nat, now: nat, e: Entry)
    requires AllIssued(windows, messages, first, added, ids, generation, now) && AllAged(windows, windows')
    requires KeyOf(e) in messages && first + |ids| in windows'
    requires Issued(windows'[first + |ids|], e, generation, messages[KeyOf(e)].inboxSeq, now)
    ensures AllIssued(windows', messages, first, added + [e], ids + [first + |ids|], generation, now)
  {}

  /** What the first `n` entries have done to the windows. */
  ghost predicate IssuedSoFar(db0: Db, db: Db, page: Page, n: nat, now: nat)
    requires n <= |page.entries|
  {
    var txn, added := InsertWindows(db0, db, page, n, now), AddedEntries(db0.messages, page.entries, n);
    txn.Commit? ==>
      && txn.db.nextWindow == db.nextWindow + |added| && AllAged(db.windows, txn.db.windows)
      && AllIssued(txn.db.windows, db.messages, db.nextWindow, added, txn.value, page.generation, now)
      && (Secreted(db.windows, db.secrets) ==> Secreted(txn.db.windows, txn.db.secrets))
  }

  lemma IssueNext(db0: Db, db: Db, page: Page, n: nat, now: nat, mid: Db, ids: seq<WindowId>)
    requires n < |page.entries| && IsFresh(db0.messages, page.entries, n)
    requires Inv(mid) && mid.messages == db.messages && KeyOf(page.entries[n]) in db.messages
    requires var added := AddedEntries(db0.messages, page.entries, n);
      && mid.nextWindow == db.nextWindow + |added| && AllAged(db.windows, mid.windows)
      && AllIssued(mid.windows, db.messages, db.nextWindow, added, ids, page.generation, now)
    ensures var added, e := AddedEntries(db0.messages, page.entries, n), page.entries[n];
      var txn := InsertWindow(AddImages(mid, e), page.generation, e, KeysOf(added), now);
      txn.Commit? ==>
        && txn.value == db.nextWindow + |added| && txn.db.nextWindow == mid.nextWindow + 1
        && AllAged(db.windows, txn.db.windows)
        && AllIssued(txn.db.windows, db.messages, db.nextWindow, added + [e], ids + [txn.value], page.generation, now)
        && (Secreted(mid.windows, mid.secrets) ==> Secreted(txn.db.windows, txn.db.secrets))
  {
    hide Inv, InsertWindow, Issued, AllAged, Aged, IsFresh, AddedEntries, KeysOf, Secreted, KeyOf, AddImages;
    var added, e := AddedEntries(db0.messages, page.entries, n), page.entries[n];
    var before := AddImages(mid, e);
    assert |ids| == |added|;
    hide AllIssued;
    AddImagesOnly(mid, e);
    OtherTablesKeep(mid, before);
    var txn := InsertWindow(before, page.generation, e, KeysOf(added), now);
    if txn.Commit? {
      InsertWindowIssues(before, page.generation, e, KeysOf(added), now);
      AgedTwice(db.windows, mid.windows, txn.db.windows);
      IssuedOneMore(mid.windows, txn.db.windows, db.messages, db.nextWindow, added, ids, page.generation, now, e);
    }
  }

  lemma AddImagesOnly(db: Db, e: Entry)
    ensures AddImages(db, e) == db.(images := AddImages(db, e).images)
  {}

  lemma {:induction false} InsertWindowsIssue(db0: Db, db: Db, page: Page, n: nat, now: nat)
    requires n <= |page.entries| && PageReady(db0, db, page)
    ensures IssuedSoFar(db0, db, page, n, now)
  {
    hide Inv, InsertWindow, AllAged, AllIssued, IsFresh, KeysOf, AddImages, KnownDuplicate, Secreted;
    if n > 0 {
      InsertWindowsIssue(db0, db, page, n - 1, now);
      InsertWindowsKeeps(db0, db, page, n - 1, now);
      var rest := InsertWindows(db0, db, page, n - 1, now);
      if rest.Commit? && IsFresh(db0.messages, page.entries, n - 1) {
        IssueNext(db0, db, page, n - 1, now, rest.db, rest.value);
      }
    } else {
      AgedNot(db.windows);
      NoneIssued(db, page, now);
    }
  }

  lemma NoneIssued(db: Db, page: Page, now: nat)
    ensures AllIssued(db.windows, db.messages, db.nextWindow, [], [], page.generation, now)
  {}

  lemma AgedNot(windows: map<WindowId, Window>)
    ensures AllAged(windows, windows)
  {}

  lemma SameSeqs(windows: map<WindowId, Window>, messages: map<MessageKey, Inbound>,
                 messages': map<MessageKey, Inbound>, first: nat, added: seq<Entry>, ids: seq<WindowId>,
                 generation: nat, now: nat)
    requires AllIssued(windows, messages, first, added, ids, generation, now)
    requires messages'.Keys == messages.Keys && forall k :: k in messages ==> Merged(messages[k], messages'[k])
    ensures AllIssued(windows, messages', first, added, ids, generation, now)
  {}

  /**
   Every inserted message gets one reply window, numbered in page order, of the page's generation, valid
   for a day from when it was sent but not beyond a day from now, and with its whole quota. Windows from
   before are untouched or superseded, and open windows keep their context tokens.
   */
  lemma PageIssuesWindows(db: Db, page: Page, now: nat)
    requires Inv(db) && CommitPage(db, page, now).Commit?
    ensures var after, ids := CommitPage(db, page, now).db, CommitPage(db, page, now).value.windows;
      var added := AddedEntries(db.messages, page.entries, |page.entries|);
      && AllIssued(after.windows, after.messages, db.nextWindow, added, ids, page.generation, now)
      && after.nextWindow == db.nextWindow + |added| && AllAged(db.windows, after.windows)
      && (Secreted(db.windows, db.secrets) ==> Secreted(after.windows, after.secrets))
  {
    PageStages(db, page, now);
    var stored := InsertAll(db, Arrivals(page), now);
    InsertAllGrows(db, Arrivals(page), now);
    InsertWindowsIssue(db, stored, page, |page.entries|, now);
    hide Inv, CommitPage, InsertAll, InsertWindows, AddedEntries, AllAged, AllIssued, Merged, Secreted;
    var windowed := InsertWindows(db, stored, page, |page.entries|, now);
    SameSeqs(windowed.db.windows, stored.messages, CommitPage(db, page, now).db.messages, db.nextWindow,
             AddedEntries(db.messages, page.entries, |page.entries|), windowed.value, page.generation, now);
  }

  // ---------------------------------------------------------------- images and their count

  lemma {:induction false} ReverseAt<T>(s: seq<T>, i: nat)
    requires i < |s|
    ensures |Reverse(s)| == |s| && Reverse(s)[i] == s[|s| - 1 - i]
  {
    if i > 0 {
      ReverseAt(s[..|s| - 1], i - 1);
    } else if |s| > 1 {
      ReverseAt(s[..|s| - 1], 0);
    }
  }

  /** The images of a message, last position first. */
  function ImagesOf(images: map<MessageKey, seq<string>>, k: MessageKey): seq<string> {
    if k in images then images[k] else []
  }

  lemma {:induction false} LatestSplit(images: map<MessageKey, seq<string>>, first: seq<MessageKey>,
    rest: seq<MessageKey>)
    ensures LatestImages(images, first + rest) == LatestImages(images, first) + LatestImages(images, rest)
  {
    if first == [] {
      assert first + rest == rest;
    } else {
      assert (first + rest)[1..] == first[1..] + rest;
      LatestSplit(images, first[1..], rest);
    }
  }

  /**
   The images of a merged message are those of its messages, one message after the other as they are listed, each
   with its last position first: image `i` of message `k` stands at its place counted from the end.
   */
  lemma ImagesStandInOrder(images: map<MessageKey, seq<string>>, before: seq<MessageKey>, k: MessageKey,
                           after: seq<MessageKey>, i: nat)
    requires i < |ImagesOf(images, k)|
    ensures var all, n := LatestImages(images, before + [k] + after), |ImagesOf(images, k)|;
      var start := |LatestImages(images, before)|;
      && |all| == start + n + |LatestImages(images, after)|
      && all[start + (n - 1 - i)] == ImagesOf(images, k)[i]
  {
    LatestSplit(images, before + [k], after);
    LatestSplit(images, before, [k]);
    var mine, n := Reverse(ImagesOf(images, k)), |ImagesOf(images, k)|;
    ReverseAt(ImagesOf(images, k), n - 1 - i);
    assert LatestImages(images, [k]) == mine + LatestImages(images, []);
  }

  /** The count of images is written as a decimal number. */
  lemma {:induction false} CountIsDecimal(n: nat)
    ensures AllDigits(Digits(n)) && Digits(n) != [] && Decimal(Digits(n)) == n
  {
    if n >= 10 {
      CountIsDecimal(n / 10);
      assert Digits(n)[..|Digits(n)| - 1] == Digits(n / 10);
    } else {
      assert Digits(n)[..0] == [];
    }
  }

  // ---------------------------------------------------------------- what a page returns

  /** Every message that a page returns was inserted by it, and is live. */
  lemma ReturnedAreLive(db: Db, page: Page, now: nat, k: MessageKey)
    requires Inv(db) && CommitPage(db, page, now).Commit? && k in CommitPage(db, page, now).value.inserted
    ensures exists i: nat :: Inserts(db, page, i) && KeyOf(page.entries[i]) == k && IsLive(page, page.entries[i])
  {
    hide *;
    ReturnedIsOpen(db, page, now, k);
    var i := InsertedAt(db, page, k);
    LiveIsReturned(db, page, now, i);
    LiveIs(page, page.entries[i]);
  }

  lemma ReturnedIsOpen(db: Db, page: Page, now: nat, k: MessageKey)
    requires Inv(db) && CommitPage(db, page, now).Commit? && k in CommitPage(db, page, now).value.inserted
    ensures page.account in db.accounts && k in KeysOf(AddedEntries(db.messages, page.entries, |page.entries|))
    ensures var after := CommitPage(db, page, now).db;
      var open := OpenWindow(after, ConversationOf(db, page.account));
      open.Some? && after.windows[open.value].source == k
  {
    CommitDelivers(db, page, now);
    hide Inv, CommitPage, Delivered, NothingDelivered, NothingLost, KeysOf, AddedEntries;
  }

  lemma LiveIs(page: Page, e: Entry)
    ensures IsLive(page, e) <==> !page.deferred && (page.deferredBefore.None? || e.sentAt >= page.deferredBefore.value)
  {}

  lemma InsertedAt(db: Db, page: Page, k: MessageKey) returns (i: nat)
    requires k in KeysOf(AddedEntries(db.messages, page.entries, |page.entries|))
    ensures Inserts(db, page, i) && KeyOf(page.entries[i]) == k
  {
    AddedFacts(db.messages, page.entries, |page.entries|);
    var e :| e in AddedEntries(db.messages, page.entries, |page.entries|) && KeyOf(e) == k;
    i :| 0 <= i < |page.entries| && page.entries[i] == e && IsFresh(db.messages, page.entries, i);
  }
}
