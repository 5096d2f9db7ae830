/** Which pages fail: the exact condition for a page that passes the fence and is valid. */
module PageFailures {
  import opened Basics
  import opened Tables
  import opened PageOrder
  import opened Ledger
  import opened Inbox
  import opened PageCommit
  import opened Invariants
  import opened InboxProofs
  import opened LedgerProofs
  import opened PageProofs
  import PageTheorems
  import opened WindowFold

  /** The entry belongs to the conversation, continues from the cursor, and has an id. */
  predicate ValidEntry(e: Entry, conv: Conversation, cursor: string) {
    e.conv == conv && e.cursor == cursor && e.providerId != ""
  }

  /** No inserted entry is dated more than five minutes ahead. */
  ghost predicate Timely(messages: map<MessageKey, Inbound>, entries: seq<Entry>, n: nat, now: nat)
    requires n <= |entries|
  {
    forall i :: 0 <= i < n && IsFresh(messages, entries, i) ==> entries[i].sentAt <= now + 300_000
  }

  /** The cursor and generation are the stored ones, every entry is valid, and none is dated too far ahead. */
  ghost predicate FencedAndValid(db: Db, page: Page, now: nat) {
    && page.account in db.accounts && db.accounts[page.account].status == Active
    && db.accounts[page.account].generation == page.generation
    && db.accounts[page.account].cursor == page.expectedCursor
    && (forall i :: 0 <= i < |page.entries| ==>
          ValidEntry(page.entries[i], Conversation(WeixinIlink, page.account, db.accounts[page.account].owner),
                     page.expectedCursor))
    && Timely(db.messages, page.entries, |page.entries|, now)
  }

  lemma {:induction false} PageErrorIs(entries: seq<Entry>, conv: Conversation, cursor: string)
    ensures PageError(entries, conv, cursor).None? <==>
      forall i :: 0 <= i < |entries| ==> ValidEntry(entries[i], conv, cursor)
  {
    if entries != [] {
      PageErrorIs(entries[..|entries| - 1], conv, cursor);
      assert forall i :: 0 <= i < |entries| - 1 ==> entries[..|entries| - 1][i] == entries[i];
    }
  }

  ghost function Sources(windows: map<WindowId, Window>): set<MessageKey> {
    set w | w in windows :: windows[w].source
  }

  /** If the entry repeats a stored message, that belongs to the conversation and still has its window. */
  ghost predicate Repeatable(db: Db, e: Entry) {
    KeyOf(e) in db.messages ==> db.messages[KeyOf(e)].conv == e.conv && KeyOf(e) in Sources(db.windows)
  }

  lemma SourceWindowFinds(db: Db, key: MessageKey)
    requires Inv(db)
    ensures SourceWindow(db, key).Some? <==> key in Sources(db.windows)
  {
    WindowBound(db);
    hide Inv;
  }

  lemma SameMarksSources(windows: map<WindowId, Window>, windows': map<WindowId, Window>, conv: Conversation,
                         changed: bool)
    requires SameMarks(windows, windows', conv, changed)
    ensures Sources(windows) == Sources(windows')
  {
    forall k | k in Sources(windows) ensures k in Sources(windows') {
      var w :| w in windows && windows[w].source == k;
      assert SameMark(windows[w], windows'[w], conv, changed);
    }
    forall k | k in Sources(windows') ensures k in Sources(windows) {
      var w :| w in windows' && windows'[w].source == k;
      assert SameMark(windows[w], windows'[w], conv, changed);
    }
  }

  lemma AddedSources(windows: map<WindowId, Window>, windows': map<WindowId, Window>, id: WindowId, e: Entry,
                     opens: bool)
    requires WindowAdded(windows, windows', id, e, opens)
    ensures Sources(windows') == Sources(windows) + {KeyOf(e)}
  {
    SameMarksSources(windows, windows' - {id}, e.conv, opens);
    hide SameMarks;
    forall k | k in Sources(windows') ensures k in Sources(windows' - {id}) + {KeyOf(e)} {
      var w :| w in windows' && windows'[w].source == k;
      if w != id { assert w in windows' - {id}; }
    }
    assert windows'[id].source == KeyOf(e);
  }

  lemma InsertedSources(db: Db, generation: nat, e: Entry, pageSources: set<MessageKey>, now: nat)
    requires Inv(db) && KeyOf(e) in db.messages && e.sentAt <= now + MAX_CLOCK_SKEW
    ensures var txn := InsertWindow(db, generation, e, pageSources, now);
      txn.Commit? && Sources(txn.db.windows) == Sources(db.windows) + {KeyOf(e)}
  {
    assert InsertWindow(db, generation, e, pageSources, now).Commit? by { hide Inv, BecomesOpen, Supersede, AddWindow; }
    hide InsertWindow;
    InsertWindowAdds(db, generation, e, pageSources, now);
    hide Inv, WindowAdded, BecomesOpen, Sources;
    AddedSources(db.windows, InsertWindow(db, generation, e, pageSources, now).db.windows, db.nextWindow, e,
                 BecomesOpen(db, e, pageSources));
  }

  /** The loop over a valid page fails at the first entry that cannot be repeated, and nowhere else. */
  lemma {:induction false} InsertWindowsOutcome(db0: Db, db: Db, page: Page, n: nat, now: nat)
    requires n <= |page.entries| && PageReady(db0, db, page) && db.windows == db0.windows
    requires Timely(db0.messages, page.entries, n, now)
    ensures var txn := InsertWindows(db0, db, page, n, now);
      if forall i :: 0 <= i < n && KeyOf(page.entries[i]) in db0.messages ==>
          KeyOf(page.entries[i]) in Sources(db0.windows)
      then txn.Commit? && Sources(txn.db.windows) ==
        Sources(db0.windows) + KeysOf(AddedEntries(db0.messages, page.entries, n))
      else txn == Rollback(DedupeInvariant)
  {
    hide Inv, InsertWindow, IsFresh, Sources, KnownDuplicate;
    if n > 0 {
      InsertWindowsOutcome(db0, db, page, n - 1, now);
      InsertWindowsKeeps(db0, db, page, n - 1, now);
      var rest := InsertWindows(db0, db, page, n - 1, now);
      if rest.Commit? { EntryOutcome(db0, db, page, n - 1, now, rest.db); }
      AddedMoreKeys(db0.messages, page.entries, n - 1);
      FreshIs(db0.messages, page.entries, n - 1);
    } else {
      NoKeys();
    }
  }

  lemma NoKeys()
    ensures KeysOf([]) == {}
  {}

  lemma AddedMoreKeys(messages: map<MessageKey, Inbound>, entries: seq<Entry>, n: nat)
    requires n < |entries|
    ensures KeysOf(AddedEntries(messages, entries, n + 1)) == KeysOf(AddedEntries(messages, entries, n))
      + (if IsFresh(messages, entries, n) then {KeyOf(entries[n])} else {})
  {
    var added := AddedEntries(messages, entries, n);
    hide IsFresh;
    if IsFresh(messages, entries, n) {
      assert entries[n] in added + [entries[n]];
      assert forall e :: e in added ==> e in added + [entries[n]];
    }
  }

  lemma FreshIs(messages: map<MessageKey, Inbound>, entries: seq<Entry>, n: nat)
    requires n < |entries|
    ensures IsFresh(messages, entries, n) ==> KeyOf(entries[n]) !in messages
    ensures !IsFresh(messages, entries, n) && KeyOf(entries[n]) !in messages ==>
      KeyOf(entries[n]) in KeysOf(AddedEntries(messages, entries, n))
  {
    if !IsFresh(messages, entries, n) && KeyOf(entries[n]) !in messages {
      var j :| 0 <= j < n && KeyOf(entries[j]) == KeyOf(entries[n]);
      PageTheorems.AddedCovers(messages, entries, n, j);
    }
  }

  /** One entry: a new one gets its window, a repeated one must have one. */
  lemma EntryOutcome(db0: Db, db: Db, page: Page, n: nat, now: nat, mid: Db)
    requires n < |page.entries| && PageReady(db0, db, page)
    requires IsFresh(db0.messages, page.entries, n) ==> page.entries[n].sentAt <= now + MAX_CLOCK_SKEW
    requires Inv(mid) && mid.messages == db.messages
    requires Sources(mid.windows) == Sources(db0.windows) + KeysOf(AddedEntries(db0.messages, page.entries, n))
    ensures var e := page.entries[n];
      && KeyOf(e) in mid.messages
      && (if IsFresh(db0.messages, page.entries, n) then
            var txn := InsertWindow(AddImages(mid, e), page.generation, e,
              KeysOf(AddedEntries(db0.messages, page.entries, n)), now);
            txn.Commit? && Sources(txn.db.windows) == Sources(mid.windows) + {KeyOf(e)}
          else KnownDuplicate(mid, e) <==> (KeyOf(e) in db0.messages ==> KeyOf(e) in Sources(db0.windows)))
  {
    var e := page.entries[n];
    var before := AddImages(mid, e);
    FreshIs(db0.messages, page.entries, n);
    AddedFacts(db0.messages, page.entries, n);
    SourceWindowFinds(mid, KeyOf(e));
    hide Inv, InsertWindow, IsFresh, Sources, AddedEntries;
    OtherTablesKeep(mid, before);
    if IsFresh(db0.messages, page.entries, n) {
      InsertedSources(before, page.generation, e, KeysOf(AddedEntries(db0.messages, page.entries, n)), now);
    }
  }

  /** The loop over the windows accepts only timely entries. */
  lemma {:induction false} InsertedAreTimely(db0: Db, db: Db, page: Page, n: nat, now: nat)
    requires n <= |page.entries| && InsertWindows(db0, db, page, n, now).Commit?
    ensures Timely(db0.messages, page.entries, n, now)
  {
    hide IsFresh, InsertWindow, KnownDuplicate, KeysOf, AddedEntries;
    if n > 0 {
      InsertedAreTimely(db0, db, page, n - 1, now);
      var rest, e := InsertWindows(db0, db, page, n - 1, now), page.entries[n - 1];
      if IsFresh(db0.messages, page.entries, n - 1) {
        WindowIsTimely(AddImages(rest.db, e), page.generation, e,
                       KeysOf(AddedEntries(db0.messages, page.entries, n - 1)),
                       now);
      }
    }
  }

  lemma WindowIsTimely(db: Db, generation: nat, e: Entry, pageSources: set<MessageKey>, now: nat)
    requires KeyOf(e) in db.messages && InsertWindow(db, generation, e, pageSources, now).Commit?
    ensures e.sentAt <= now + 300_000
  {
    hide BecomesOpen, Supersede, AddWindow;
  }

  /**
   A page that passes the fence and is valid commits exactly if it repeats no stored message of another
   conversation and none whose window is gone; otherwise it fails with `dedupe_invariant`.
   */
  lemma ValidPageOutcome(db: Db, page: Page, now: nat)
    requires Inv(db) && FencedAndValid(db, page, now)
    ensures if forall i :: 0 <= i < |page.entries| ==> Repeatable(db, page.entries[i])
      then CommitPage(db, page, now).Commit?
      else CommitPage(db, page, now) == Rollback(DedupeInvariant)
  {
    hide *;
    FenceIsMatch(db, page, now);
    IdentityIs(db, page);
    RepeatableIs(db, page);
    CommitShape(db, page, now);
    if SameIdentity(db, Arrivals(page)) {
      var stored := InsertAll(db, Arrivals(page), now);
      StoredReady(db, page, now);
      StoredWindows(db, page, now);
      InsertWindowsOutcome(db, stored, page, |page.entries|, now);
      ReadyIsRegistered(db, stored, page);
      InsertWindowsKeeps(db, stored, page, |page.entries|, now);
    }
  }

  lemma StoredWindows(db: Db, page: Page, now: nat)
    ensures InsertAll(db, Arrivals(page), now).windows == db.windows
  {
    InsertAllGrows(db, Arrivals(page), now);
    hide InsertAll;
  }

  lemma ReadyIsRegistered(db0: Db, db: Db, page: Page)
    requires PageReady(db0, db, page)
    ensures page.account in db.accounts
  {}

  lemma CommitShape(db: Db, page: Page, now: nat)
    requires CursorMatches(db, page.account, page.generation, page.expectedCursor)
    requires PageError(page.entries, ConversationOf(db, page.account), page.expectedCursor).None?
    ensures var txn := CommitPage(db, page, now);
      if SameIdentity(db, Arrivals(page)) then
        var windowed := InsertWindows(db, InsertAll(db, Arrivals(page), now), page, |page.entries|, now);
        && (windowed.Rollback? ==> txn == Rollback(windowed.error))
        && (windowed.Commit? && page.account in windowed.db.accounts ==> txn.Commit?)
      else txn == Rollback(DedupeInvariant)
  {
    hide PageError, SameIdentity, InsertAll, InsertWindows, AddedEntries, Finish, Deliverable;
  }

  lemma FenceIsMatch(db: Db, page: Page, now: nat)
    requires FencedAndValid(db, page, now)
    ensures page.account in db.accounts
    ensures CursorMatches(db, page.account, page.generation, page.expectedCursor)
    ensures PageError(page.entries, ConversationOf(db, page.account), page.expectedCursor).None?
    ensures Timely(db.messages, page.entries, |page.entries|, now)
    ensures forall i :: 0 <= i < |page.entries| ==> page.entries[i].conv == ConversationOf(db, page.account)
  {
    PageErrorIs(page.entries, ConversationOf(db, page.account), page.expectedCursor);
    hide Timely, PageError;
    assert forall i :: 0 <= i < |page.entries| ==>
      ValidEntry(page.entries[i], ConversationOf(db, page.account), page.expectedCursor);
  }

  lemma CommittedIsValid(db: Db, page: Page, now: nat)
    requires CommitPage(db, page, now).Commit?
    ensures FencedAndValid(db, page, now)
  {
    PageErrorIs(page.entries, ConversationOf(db, page.account), page.expectedCursor);
    InsertedAreTimely(db, InsertAll(db, Arrivals(page), now), page, |page.entries|, now);
    hide PageError, SameIdentity, InsertAll, InsertWindows, AddedEntries, Finish, Deliverable, Timely, IsFresh;
  }

  /** A page commits exactly if it passes the fence, is valid, and may repeat what it repeats. */
  lemma PageCommitsExactly(db: Db, page: Page, now: nat)
    requires Inv(db)
    ensures CommitPage(db, page, now).Commit? <==>
      FencedAndValid(db, page, now) && forall i :: 0 <= i < |page.entries| ==> Repeatable(db, page.entries[i])
  {
    hide *;
    if CommitPage(db, page, now).Commit? { CommittedIsValid(db, page, now); }
    if FencedAndValid(db, page, now) { ValidPageOutcome(db, page, now); }
  }

  lemma IdentityIs(db: Db, page: Page)
    requires page.account in db.accounts
    requires forall i :: 0 <= i < |page.entries| ==> page.entries[i].conv == ConversationOf(db, page.account)
    ensures SameIdentity(db, Arrivals(page)) <==>
      forall i :: 0 <= i < |page.entries| && KeyOf(page.entries[i]) in db.messages ==>
        db.messages[KeyOf(page.entries[i])].conv == page.entries[i].conv
  {
    var arrivals := Arrivals(page);
    assert forall i :: 0 <= i < |arrivals| ==> arrivals[i] == ToArrival(page, page.entries[i]);
  }

  lemma RepeatableIs(db: Db, page: Page)
    ensures (forall i :: 0 <= i < |page.entries| ==> Repeatable(db, page.entries[i])) <==>
      && (forall i :: 0 <= i < |page.entries| && KeyOf(page.entries[i]) in db.messages ==>
            db.messages[KeyOf(page.entries[i])].conv == page.entries[i].conv)
      && (forall i :: 0 <= i < |page.entries| && KeyOf(page.entries[i]) in db.messages ==>
            KeyOf(page.entries[i]) in Sources(db.windows))
  {
    hide Sources;
  }
}
