/** A committed page keeps the invariant. */
module PageProofs {
  import opened Basics
  import opened Tables
  import opened PageOrder
  import opened Ledger
  import opened Inbox
  import opened PageCommit
  import opened Invariants
  import opened InboxProofs
  import opened LedgerProofs

  // ---------------------------------------------------------------- windows

  ghost predicate NoneOpen(windows: map<WindowId, Window>, conv: Conversation) {
    forall v :: v in windows ==> !(windows[v].conv == conv && windows[v].state == Open)
  }

  ghost predicate NotSource(windows: map<WindowId, Window>, key: MessageKey) {
    forall v :: v in windows ==> windows[v].source != key
  }

  /** `OpenWindow` finds the open window of a conversation if there is one, and there is one at most. */
  lemma OpenWindowFacts(db: Db, conv: Conversation)
    requires Inv(db)
    ensures OpenWindow(db, conv).None? <==> NoneOpen(db.windows, conv)
    ensures OpenWindow(db, conv).Some? ==> OpenWindow(db, conv).value in db.windows
    ensures forall v :: v in db.windows && db.windows[v].conv == conv && db.windows[v].state == Open ==>
      OpenWindow(db, conv) == Some(v)
  {
    forall v | v in db.windows ensures v < db.nextWindow {
      assert WindowOk(db.accounts, db.messages, db.nextWindow, v, db.windows[v]);
    }
  }

  lemma AddWindowKeepsLinks(db: Db, w: Window)
    requires Inv(db) && WindowOk(db.accounts, db.messages, db.nextWindow + 1, db.nextWindow, w)
    ensures LinksInv(AddWindow(db, w))
  {
    hide Inv;
    var after := AddWindow(db, w);
    forall k | k in db.attempts ensures AttemptOk(db.messages, after.windows, k, db.attempts[k]) {
      AttemptFacts(db, k);
      WindowBound(db);
    }
    forall t | t in db.sessions ensures SessionOk(db.messages, after.windows, db.sessions[t]) {
      SessionFacts(db, t);
      WindowBound(db);
    }
    forall v | v in after.windows ensures WindowOk(db.accounts, db.messages, after.nextWindow, v, after.windows[v]) {
      if v != db.nextWindow { WindowFacts(db, v); }
    }
  }

  lemma WindowBound(db: Db)
    requires Inv(db)
    ensures forall v :: v in db.windows ==> v < db.nextWindow
    ensures forall w :: w in db.sent ==> w < db.nextWindow
  {
    hide Inv;
    forall v | v in db.windows ensures v < db.nextWindow { WindowFacts(db, v); }
    assert forall w :: w in db.sent ==> w < db.nextWindow by { SentBound(db); }
  }

  lemma SentBound(db: Db)
    requires Inv(db)
    ensures SentOk(db.nextWindow, db.sent)
  {}

  lemma AddWindowKeepsQuota(db: Db, w: Window)
    requires Inv(db) && w.reserved == w.transmitted == 0
    ensures QuotaOk(AddWindow(db, w).windows, db.attempts, db.sent)
  {
    hide Inv;
    var after, id := AddWindow(db, w), db.nextWindow;
    WindowBound(db);
    forall k | k in db.attempts ensures db.attempts[k].window != Some(id) { AttemptFacts(db, k); }
    assert PendingOf(db.attempts, id) == {} && ChargedOf(db.attempts, id) == {};
    forall v | v in after.windows
      ensures QuotaAt(after.windows[v], |PendingOf(db.attempts, v)|, |ChargedOf(db.attempts, v)|, db.sent[v])
    {
      if v != id { WindowFacts(db, v); }
    }
  }

  lemma AddWindowKeepsIndices(db: Db, w: Window)
    requires Inv(db)
    ensures IndicesOk(AddWindow(db, w).windows, db.attempts)
  {
    WindowBound(db);
    forall k | k in db.attempts ensures db.attempts[k].window != Some(db.nextWindow) {
      AttemptFacts(db, k);
    }
  }

  lemma AddWindowKeepsUnique(db: Db, w: Window)
    requires Inv(db) && NotSource(db.windows, w.source) && (w.state == Open ==> NoneOpen(db.windows, w.conv))
    ensures UniqueWindows(AddWindow(db, w).windows)
    ensures SecretsOk(AddWindow(db, w).windows, AddWindow(db, w).secrets)
    ensures SentOk(AddWindow(db, w).nextWindow, db.sent) && OneSending(db.attempts)
  {
    WindowBound(db);
  }

  lemma AddWindowKeeps(db: Db, w: Window)
    requires Inv(db) && w.reserved == w.transmitted == 0
    requires WindowOk(db.accounts, db.messages, db.nextWindow + 1, db.nextWindow, w)
    requires NotSource(db.windows, w.source) && (w.state == Open ==> NoneOpen(db.windows, w.conv))
    ensures Inv(AddWindow(db, w))
  {
    AddWindowKeepsLinks(db, w);
    AddWindowKeepsQuota(db, w);
    AddWindowKeepsIndices(db, w);
    AddWindowKeepsUnique(db, w);
    assert MessagesInv(AddWindow(db, w));
    hide MessagesInv, LinksInv, QuotaOk, IndicesOk, UniqueWindows, SecretsOk, SentOk, OneSending;
  }

  lemma SupersedeKeeps(db: Db, conv: Conversation, now: nat)
    requires Inv(db)
    ensures Inv(Supersede(db, conv, now)) && NoneOpen(Supersede(db, conv, now).windows, conv)
    ensures forall key :: NotSource(db.windows, key) ==> NotSource(Supersede(db, conv, now).windows, key)
  {
    hide Inv;
    OpenWindowFacts(db, conv);
    var current := OpenWindow(db, conv);
    if current.Some? {
      RetireKeeps(db, {current.value}, Superseded, SupersededByNewer, now);
    }
  }

  lemma InsertWindowKeeps(db: Db, generation: nat, e: Entry, pageSources: set<MessageKey>, now: nat)
    requires Inv(db) && KeyOf(e) in db.messages && db.messages[KeyOf(e)].conv == e.conv
    requires e.conv.channel == WeixinIlink && e.conv.account in db.accounts
    requires db.accounts[e.conv.account].generation == generation
    requires NotSource(db.windows, KeyOf(e))
    ensures InsertWindow(db, generation, e, pageSources, now).Commit? ==>
      var after := InsertWindow(db, generation, e, pageSources, now).db;
      Inv(after) && after.accounts == db.accounts && after.messages == db.messages && after.inbox == db.inbox
  {
    hide Inv;
    OpenWindowFacts(db, e.conv);
    SupersedeKeeps(db, e.conv, now);
    var txn := InsertWindow(db, generation, e, pageSources, now);
    var opens := BecomesOpen(db, e, pageSources);
    if txn.Commit? {
      var ready := if opens then Supersede(db, e.conv, now) else db;
      AddWindowKeeps(ready, NewWindow(generation, e, db.messages[KeyOf(e)].inboxSeq,
        if opens then Open else Superseded, now));
    }
  }

  // ---------------------------------------------------------------- the loop

  lemma {:induction false} PageErrorNone(entries: seq<Entry>, conv: Conversation, cursor: string)
    requires PageError(entries, conv, cursor).None?
    ensures forall i :: 0 <= i < |entries| ==> entries[i].conv == conv
  {
    if entries != [] { PageErrorNone(entries[..|entries| - 1], conv, cursor); }
  }

  lemma {:induction false} AddedFacts(messages: map<MessageKey, Inbound>, entries: seq<Entry>, n: nat)
    requires n <= |entries|
    ensures forall e :: e in AddedEntries(messages, entries, n) ==>
      KeyOf(e) !in messages && exists i :: 0 <= i < n && entries[i] == e && IsFresh(messages, entries, i)
  {
    if n > 0 { AddedFacts(messages, entries, n - 1); }
  }

  /** After a prefix of the page only stored messages and inserted ones are sources of windows. */
  ghost predicate SourcesFrom(messages: map<MessageKey, Inbound>, added: seq<Entry>, windows: map<WindowId, Window>) {
    forall w :: w in windows ==> windows[w].source in messages || windows[w].source in KeysOf(added)
  }

  lemma NewSource(messages: map<MessageKey, Inbound>, entries: seq<Entry>, n: nat, windows: map<WindowId, Window>)
    requires n < |entries| && IsFresh(messages, entries, n)
    requires SourcesFrom(messages, AddedEntries(messages, entries, n), windows)
    ensures NotSource(windows, KeyOf(entries[n]))
  {
    AddedFacts(messages, entries, n);
    forall w | w in windows ensures windows[w].source != KeyOf(entries[n]) {
      if windows[w].source in KeysOf(AddedEntries(messages, entries, n)) {
        var e :| e in AddedEntries(messages, entries, n) && KeyOf(e) == windows[w].source;
      }
    }
  }

  lemma InsertWindowSource(db: Db, generation: nat, e: Entry, pageSources: set<MessageKey>, now: nat, w: WindowId)
    requires KeyOf(e) in db.messages && InsertWindow(db, generation, e, pageSources, now).Commit?
    requires w in InsertWindow(db, generation, e, pageSources, now).db.windows
    ensures var after := InsertWindow(db, generation, e, pageSources, now).db;
      after.windows[w].source == KeyOf(e) || (w in db.windows && after.windows[w].source == db.windows[w].source)
  {
    hide EntryIsNewer, FindOpen, FailPending, CloseSessions, WindowAttempts, WindowSessions;
  }

  lemma InsertWindowSources(db: Db, generation: nat, e: Entry, pageSources: set<MessageKey>, now: nat,
                            messages: map<MessageKey, Inbound>, added: seq<Entry>)
    requires KeyOf(e) in db.messages && InsertWindow(db, generation, e, pageSources, now).Commit?
    requires SourcesFrom(messages, added, db.windows)
    ensures SourcesFrom(messages, added + [e], InsertWindow(db, generation, e, pageSources, now).db.windows)
  {
    var after := InsertWindow(db, generation, e, pageSources, now).db;
    assert e in added + [e];
    assert KeysOf(added + [e]) == KeysOf(added) + {KeyOf(e)};
    hide InsertWindow, KeysOf;
    forall w | w in after.windows
      ensures after.windows[w].source in messages || after.windows[w].source in KeysOf(added + [e])
    {
      InsertWindowSource(db, generation, e, pageSources, now, w);
    }
  }

  ghost predicate PageReady(db0: Db, db: Db, page: Page) {
    && Inv(db)
    && page.account in db.accounts && db.accounts[page.account].generation == page.generation
    && SourcesFrom(db0.messages, [], db.windows)
    && forall i :: 0 <= i < |page.entries| ==>
         && page.entries[i].conv == ConversationOf(db, page.account)
         && KeyOf(page.entries[i]) in db.messages
         && db.messages[KeyOf(page.entries[i])].conv == page.entries[i].conv
  }

  lemma InsertNextKeeps(db0: Db, db: Db, page: Page, n: nat, now: nat, mid: Db)
    requires n < |page.entries| && PageReady(db0, db, page) && IsFresh(db0.messages, page.entries, n)
    requires Inv(mid) && mid.accounts == db.accounts && mid.messages == db.messages && mid.inbox == db.inbox
    requires SourcesFrom(db0.messages, AddedEntries(db0.messages, page.entries, n), mid.windows)
    ensures var txn := InsertWindow(AddImages(mid, page.entries[n]), page.generation, page.entries[n],
                                    KeysOf(AddedEntries(db0.messages, page.entries, n)), now);
      txn.Commit? ==>
        && Inv(txn.db) && txn.db.accounts == db.accounts && txn.db.messages == db.messages && txn.db.inbox == db.inbox
        && SourcesFrom(db0.messages, AddedEntries(db0.messages, page.entries, n) + [page.entries[n]], txn.db.windows)
  {
    var e, added := page.entries[n], AddedEntries(db0.messages, page.entries, n);
    var before := AddImages(mid, e);
    NewSource(db0.messages, page.entries, n, mid.windows);
    hide Inv, InsertWindow, SourcesFrom, AddedEntries, IsFresh, KeysOf;
    OtherTablesKeep(mid, before);
    InsertWindowKeeps(before, page.generation, e, KeysOf(added), now);
    if InsertWindow(before, page.generation, e, KeysOf(added), now).Commit? {
      InsertWindowSources(before, page.generation, e, KeysOf(added), now, db0.messages, added);
    }
  }

  lemma {:induction false} InsertWindowsKeeps(db0: Db, db: Db, page: Page, n: nat, now: nat)
    requires n <= |page.entries| && PageReady(db0, db, page)
    ensures var txn := InsertWindows(db0, db, page, n, now);
      txn.Commit? ==>
        && Inv(txn.db) && txn.db.accounts == db.accounts && txn.db.messages == db.messages && txn.db.inbox == db.inbox
        && SourcesFrom(db0.messages, AddedEntries(db0.messages, page.entries, n), txn.db.windows)
  {
    hide Inv, InsertWindow, SourcesFrom, KnownDuplicate, IsFresh, KeysOf, AddImages;
    if n > 0 {
      InsertWindowsKeeps(db0, db, page, n - 1, now);
      var rest := InsertWindows(db0, db, page, n - 1, now);
      if rest.Commit? && IsFresh(db0.messages, page.entries, n - 1) {
        InsertNextKeeps(db0, db, page, n - 1, now, rest.db);
      }
    }
  }

  // ---------------------------------------------------------------- the end of the transaction

  lemma AbsorbKeeps(db: Db, keys: set<MessageKey>, now: nat)
    requires Inv(db)
    ensures Inv(db.(messages := Absorb(db.messages, keys, now)))
  {
    var after := Absorb(db.messages, keys, now);
    forall k | k in after ensures FlatAt(after, k) { assert FlatAt(db.messages, k); }
    forall k | k in db.attempts && k.source in after ensures Owns(after[k.source].status, db.attempts[k]) {
      assert Owns(db.messages[k.source].status, db.attempts[k]);
    }
    RewriteKeeps(db, after);
  }

  lemma SetPayloadKeeps(db: Db, key: MessageKey, m: Inbound)
    requires Inv(db) && key in db.messages
    requires m == db.messages[key].(payload := m.payload, updatedAt := m.updatedAt)
    ensures Inv(db.(messages := db.messages[key := m]))
  {
    var after := db.messages[key := m];
    forall k | k in after ensures FlatAt(after, k) { assert FlatAt(db.messages, k); }
    RewriteKeeps(db, after);
  }

  lemma DeliverKeeps(db: Db, added: seq<Entry>, open: MessageKey, payload: Payload, now: nat)
    requires Inv(db) && open in db.messages
    ensures Inv(Deliver(db, added, open, payload, now))
  {
    hide Inv, Absorb, InOrder, LatestImages, StoredSummaries, BacklogKeys, KeysOf, PageSummaries, Join, ImageNote, Take;
    var after := Deliver(db, added, open, payload, now);
    AbsorbKeeps(db, KeysOf(added) - {open}, now);
    var d1 := db.(messages := Absorb(db.messages, KeysOf(added) - {open}, now));
    AbsorbKeys(db.messages, KeysOf(added) - {open}, now);
    var backlogKeys := BacklogKeys(d1.messages, open);
    AbsorbKeeps(d1, backlogKeys, now);
    AbsorbKeys(d1.messages, backlogKeys, now);
    var d2 := d1.(messages := Absorb(d1.messages, backlogKeys, now));
    if after.messages != d2.messages {
      SetPayloadKeeps(d2, open, after.messages[open]);
      OtherTablesKeep(d2.(messages := d2.messages[open := after.messages[open]]), after);
    } else {
      OtherTablesKeep(d2, after);
    }
  }

  lemma AbsorbKeys(messages: map<MessageKey, Inbound>, keys: set<MessageKey>, now: nat)
    ensures Absorb(messages, keys, now).Keys == messages.Keys
  {}

  lemma DiscardKeeps(db: Db, added: seq<Entry>, now: nat)
    requires Inv(db)
    ensures Inv(Discard(db, added, now))
  {
    hide Inv;
    AbsorbKeeps(db, KeysOf(added), now);
    OtherTablesKeep(db.(messages := Absorb(db.messages, KeysOf(added), now)), Discard(db, added, now));
  }

  lemma MoveCursorKeeps(db: Db, account: string, cursor: string)
    requires Inv(db) && account in db.accounts
    ensures Inv(MoveCursor(db, account, cursor))
  {
    SetAccountKeeps(db, account, db.accounts[account].(cursor := cursor));
  }

  // ---------------------------------------------------------------- the inbox

  /** Insertion only adds `received` rows at the end of the inbox. */
  ghost predicate Grown(db: Db, after: Db) {
    && after == db.(inbox := after.inbox, messages := after.messages)
    && db.inbox <= after.inbox
    && db.messages.Keys <= after.messages.Keys
    && (forall k :: k in db.messages ==> after.messages[k] == db.messages[k])
    && (forall k :: k in after.messages && k !in db.messages ==>
          after.messages[k].status == Received && after.messages[k].inboxSeq > |db.inbox|)
  }

  lemma InsertOneGrows(db: Db, mid: Db, a: Arrival, now: nat)
    requires Grown(db, mid)
    ensures Grown(db, InsertOne(mid, a, now))
  {}

  lemma {:induction false} InsertAllGrows(db: Db, arrivals: seq<Arrival>, now: nat)
    ensures Grown(db, InsertAll(db, arrivals, now))
  {
    if arrivals != [] {
      InsertAllGrows(db, arrivals[..|arrivals| - 1], now);
      hide Grown;
      InsertOneGrows(db, InsertAll(db, arrivals[..|arrivals| - 1], now), arrivals[|arrivals| - 1], now);
    }
  }

  lemma {:induction false} InsertAllKeys(db: Db, arrivals: seq<Arrival>, now: nat)
    ensures forall k :: k in InsertAll(db, arrivals, now).messages <==>
      k in db.messages || exists i :: 0 <= i < |arrivals| && arrivals[i].key == k
  {
    if arrivals != [] {
      var init := arrivals[..|arrivals| - 1];
      InsertAllKeys(db, init, now);
      forall k | k in InsertAll(db, init, now).messages && k !in db.messages
        ensures exists i :: 0 <= i < |arrivals| && arrivals[i].key == k
      {
        var i :| 0 <= i < |init| && init[i].key == k;
        assert arrivals[i].key == k;
      }
      forall i | 0 <= i < |init| ensures arrivals[i].key in InsertAll(db, init, now).messages {
        assert init[i].key == arrivals[i].key;
      }
    }
  }

  lemma PrefixIdentity(db: Db, arrivals: seq<Arrival>)
    requires SameIdentity(db, arrivals) && arrivals != []
    ensures SameIdentity(db, arrivals[..|arrivals| - 1])
  {}

  /** A stored key belongs to the conversation of its arrivals. */
  lemma {:induction false} InsertAllConv(db: Db, arrivals: seq<Arrival>, now: nat, i: nat)
    requires SameIdentity(db, arrivals) && i < |arrivals|
    ensures arrivals[i].key in InsertAll(db, arrivals, now).messages
    ensures InsertAll(db, arrivals, now).messages[arrivals[i].key].conv == arrivals[i].conv
  {
    var init, last := arrivals[..|arrivals| - 1], arrivals[|arrivals| - 1];
    PrefixIdentity(db, arrivals);
    if i < |init| {
      InsertAllConv(db, init, now, i);
    } else {
      InsertAllGrows(db, init, now);
      InsertAllKeys(db, init, now);
      if last.key in InsertAll(db, init, now).messages && last.key !in db.messages {
        var j :| 0 <= j < |init| && init[j].key == last.key;
        InsertAllConv(db, init, now, j);
        SameArrival(db, arrivals, j, i);
      }
    }
  }

  lemma SameArrival(db: Db, arrivals: seq<Arrival>, i: nat, j: nat)
    requires SameIdentity(db, arrivals) && i < j < |arrivals| && arrivals[i].key == arrivals[j].key
    ensures arrivals[i].conv == arrivals[j].conv
  {}

  lemma StoredReady(db: Db, page: Page, now: nat)
    requires Inv(db) && CursorMatches(db, page.account, page.generation, page.expectedCursor)
    requires PageError(page.entries, ConversationOf(db, page.account), page.expectedCursor).None?
    requires SameIdentity(db, Arrivals(page))
    ensures PageReady(db, InsertAll(db, Arrivals(page), now), page)
  {
    hide Inv;
    var stored := InsertAll(db, Arrivals(page), now);
    PageErrorNone(page.entries, ConversationOf(db, page.account), page.expectedCursor);
    InsertAllKeeps(db, Arrivals(page), now);
    InsertAllGrows(db, Arrivals(page), now);
    forall i | 0 <= i < |page.entries|
      ensures KeyOf(page.entries[i]) in stored.messages
      ensures stored.messages[KeyOf(page.entries[i])].conv == page.entries[i].conv
    {
      InsertAllConv(db, Arrivals(page), now, i);
      assert Arrivals(page)[i] == ToArrival(page, page.entries[i]);
    }
    forall w | w in stored.windows ensures stored.windows[w].source in db.messages { WindowFacts(db, w); }
  }

  lemma CommitPageKeeps(db: Db, page: Page, now: nat)
    requires Inv(db)
    ensures Inv(After(db, CommitPage(db, page, now)))
  {
    hide Inv, InsertAll, InsertWindows, Deliver, Discard, AddedEntries, Deliverable, SameIdentity, PageError;
    var txn := CommitPage(db, page, now);
    if txn.Commit? {
      StoredReady(db, page, now);
      var stored := InsertAll(db, Arrivals(page), now);
      InsertWindowsKeeps(db, stored, page, |page.entries|, now);
      var windowed := InsertWindows(db, stored, page, |page.entries|, now).db;
      MoveCursorKeeps(windowed, page.account, page.nextCursor);
      var moved := MoveCursor(windowed, page.account, page.nextCursor);
      var conv := ConversationOf(db, page.account);
      var added := AddedEntries(db.messages, page.entries, |page.entries|);
      var d := Deliverable(moved, conv, added);
      if d.Some? && KeyOf(d.value) in moved.messages {
        DeliverKeeps(moved, added, KeyOf(d.value), d.value.payload, now);
      } else {
        DiscardKeeps(moved, added, now);
      }
    }
  }
}
