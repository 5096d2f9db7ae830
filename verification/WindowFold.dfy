/** Which window a series of pages leaves open: the loop over windows refines a fold over entries. */
module WindowFold {
  import opened Basics
  import opened Tables
  import opened PageOrder
  import opened Ledger
  import opened Inbox
  import opened PageCommit
  import opened Invariants
  import opened InboxProofs
  import opened LedgerProofs
  import opened PageProofs
  import opened PageTheorems

  // ---------------------------------------------------------------- the specification

  /** What decides whether an entry is newer than an open window. */
  datatype Mark = Mark(providerSeq: Option<nat>, issuedAt: nat, source: MessageKey)

  /** The mark of the open window of a conversation. */
  function MarkOf(db: Db, conv: Conversation): Option<Mark> {
    var open := OpenWindow(db, conv);
    if open.None? then None
    else
      var w := db.windows[open.value];
      Some(Mark(w.providerSeq, w.issuedAt, w.source))
  }

  function EntryMark(e: Entry): Mark { Mark(e.providerSeq, e.sentAt, KeyOf(e)) }

  function Advance(current: Option<Mark>, e: Entry, pageSources: set<MessageKey>): Option<Mark> {
    if current.Some? && !EntryIsNewer(e, current.value.providerSeq, current.value.issuedAt,
                                      current.value.source.providerId, current.value.source in pageSources)
    then current else Some(EntryMark(e))
  }

  /** The mark after the inserted entries of a page. */
  function FoldMarks(current: Option<Mark>, added: seq<Entry>): Option<Mark> {
    if added == [] then current
    else
      var init := added[..|added| - 1];
      Advance(FoldMarks(current, init), added[|added| - 1], KeysOf(init))
  }

  // ---------------------------------------------------------------- marks and tables

  /** Two databases whose windows differ at most in their counters have the same marks. */
  ghost predicate SameOpen(windows: map<WindowId, Window>, windows': map<WindowId, Window>, conv: Conversation) {
    forall w :: (w in windows && windows[w].conv == conv && windows[w].state == Open
                 <==> w in windows' && windows'[w].conv == conv && windows'[w].state == Open)
      && (w in windows && w in windows' && windows[w].conv == conv && windows[w].state == Open ==>
            && windows'[w].providerSeq == windows[w].providerSeq
            && windows'[w].issuedAt == windows[w].issuedAt
            && windows'[w].source == windows[w].source)
  }

  lemma SameOpenSameMark(db: Db, after: Db, conv: Conversation)
    requires Inv(db) && Inv(after) && SameOpen(db.windows, after.windows, conv)
    ensures MarkOf(after, conv) == MarkOf(db, conv)
  {
    hide Inv;
    OpenWindowFacts(db, conv);
    OpenWindowFacts(after, conv);
  }

  lemma SameWindowsSameMark(db: Db, after: Db, conv: Conversation)
    requires after.windows == db.windows && after.nextWindow == db.nextWindow
    ensures MarkOf(after, conv) == MarkOf(db, conv)
  {}

  lemma MarkIs(db: Db, conv: Conversation, w: WindowId)
    requires Inv(db) && w in db.windows && db.windows[w].conv == conv && db.windows[w].state == Open
    ensures MarkOf(db, conv) == Some(Mark(db.windows[w].providerSeq, db.windows[w].issuedAt, db.windows[w].source))
  {
    hide Inv;
    OpenWindowFacts(db, conv);
  }

  // ---------------------------------------------------------------- one entry

  /** The windows are the same but for counters, and for states of the conversation. */
  ghost predicate SameMarks(windows: map<WindowId, Window>, windows': map<WindowId, Window>, conv: Conversation,
                            changed: bool) {
    windows'.Keys == windows.Keys && forall w :: w in windows ==> SameMark(windows[w], windows'[w], conv, changed)
  }

  ghost predicate SameMark(w: Window, w': Window, conv: Conversation, changed: bool) {
    && w'.conv == w.conv && w'.providerSeq == w.providerSeq && w'.issuedAt == w.issuedAt && w'.source == w.source
    && (w'.state == w.state || (changed && w.conv == conv))
  }

  /** A window of `e` was added under `id`; the others changed at most their state, and only if it opens. */
  ghost predicate WindowAdded(windows: map<WindowId, Window>, windows': map<WindowId, Window>, id: WindowId, e: Entry,
                              opens: bool) {
    && id !in windows && id in windows'
    && windows'[id].conv == e.conv
    && (windows'[id].state == Open <==> opens)
    && Mark(windows'[id].providerSeq, windows'[id].issuedAt, windows'[id].source) == EntryMark(e)
    && SameMarks(windows, windows' - {id}, e.conv, opens)
  }

  lemma RetireMarks(db: Db, w: WindowId, conv: Conversation, now: nat)
    requires w in db.windows && db.windows[w].conv == conv
    ensures var after := RetireWindows(db, {w}, Superseded, SupersededByNewer, now);
      SameMarks(db.windows, after.windows, conv, true) && after.nextWindow == db.nextWindow
        && after.messages == db.messages
  {
    hide FailPending, CloseSessions, WindowAttempts, WindowSessions;
  }

  lemma SupersedeMarks(db: Db, conv: Conversation, now: nat)
    requires Inv(db)
    ensures var after := Supersede(db, conv, now);
      SameMarks(db.windows, after.windows, conv, true) && after.nextWindow == db.nextWindow
        && after.messages == db.messages
  {
    OpenWindowFacts(db, conv);
    hide Inv, SameMark, RetireWindows;
    if OpenWindow(db, conv).Some? {
      RetireMarks(db, OpenWindow(db, conv).value, conv, now);
    } else {
      SameMarksRefl(db.windows, conv, true);
    }
  }

  lemma SameMarksRefl(windows: map<WindowId, Window>, conv: Conversation, changed: bool)
    ensures SameMarks(windows, windows, conv, changed)
  {}

  lemma AddWindowAdds(db: Db, windows: map<WindowId, Window>, w: Window, e: Entry, opens: bool)
    requires db.nextWindow !in windows && SameMarks(windows, db.windows, e.conv, opens)
    requires w.conv == e.conv && Mark(w.providerSeq, w.issuedAt, w.source) == EntryMark(e)
    requires (w.state == Open <==> opens)
    ensures WindowAdded(windows, AddWindow(db, w).windows, db.nextWindow, e, opens)
  {
    hide SameMark;
    assert AddWindow(db, w).windows - {db.nextWindow} == db.windows;
  }

  lemma InsertWindowAdds(db: Db, generation: nat, e: Entry, pageSources: set<MessageKey>, now: nat)
    requires Inv(db) && KeyOf(e) in db.messages && InsertWindow(db, generation, e, pageSources, now).Commit?
    ensures WindowAdded(db.windows, InsertWindow(db, generation, e, pageSources, now).db.windows, db.nextWindow, e,
                        BecomesOpen(db, e, pageSources))
  {
    WindowBound(db);
    SupersedeMarks(db, e.conv, now);
    SameMarksRefl(db.windows, e.conv, false);
    hide Inv, Supersede, BecomesOpen, SameMarks, WindowAdded, AddWindow;
    var opens := BecomesOpen(db, e, pageSources);
    var ready := if opens then Supersede(db, e.conv, now) else db;
    AddWindowAdds(ready, db.windows,
      NewWindow(generation, e, db.messages[KeyOf(e)].inboxSeq, if opens then Open else Superseded, now),
                  e, opens);
  }

  lemma AdvanceOpens(db: Db, e: Entry, pageSources: set<MessageKey>)
    ensures Advance(MarkOf(db, e.conv), e, pageSources)
      == (if BecomesOpen(db, e, pageSources) then Some(EntryMark(e)) else MarkOf(db, e.conv))
  {}

  lemma AddedElsewhere(windows: map<WindowId, Window>, windows': map<WindowId, Window>, id: WindowId, e: Entry,
                       opens: bool, conv: Conversation)
    requires WindowAdded(windows, windows', id, e, opens) && (conv != e.conv || !opens)
    ensures SameOpen(windows, windows', conv)
  {
    forall w
      ensures w in windows && windows[w].conv == conv && windows[w].state == Open
        <==> w in windows' && windows'[w].conv == conv && windows'[w].state == Open
      ensures w in windows && w in windows' && windows[w].conv == conv && windows[w].state == Open ==>
        && windows'[w].providerSeq == windows[w].providerSeq
        && windows'[w].issuedAt == windows[w].issuedAt
        && windows'[w].source == windows[w].source
    {
      var rest := windows' - {id};
      if w != id {
        assert w in windows' <==> w in rest;
        if w in windows { assert SameMark(windows[w], rest[w], e.conv, opens); }
      }
    }
  }

  lemma InsertWindowAdvances(db: Db, generation: nat, e: Entry, pageSources: set<MessageKey>, now: nat,
                             conv: Conversation)
    requires Inv(db) && KeyOf(e) in db.messages && InsertWindow(db, generation, e, pageSources, now).Commit?
    requires Inv(InsertWindow(db, generation, e, pageSources, now).db)
    ensures MarkOf(InsertWindow(db, generation, e, pageSources, now).db, conv)
      == if conv == e.conv then Advance(MarkOf(db, conv), e, pageSources) else MarkOf(db, conv)
  {
    InsertWindowAdds(db, generation, e, pageSources, now);
    AdvanceOpens(db, e, pageSources);
    hide Inv, InsertWindow, BecomesOpen, Advance, MarkOf;
    var after, opens := InsertWindow(db, generation, e, pageSources, now).db, BecomesOpen(db, e, pageSources);
    if conv == e.conv && opens {
      MarkIs(after, conv, db.nextWindow);
    } else {
      AddedElsewhere(db.windows, after.windows, db.nextWindow, e, opens, conv);
      SameOpenSameMark(db, after, conv);
    }
  }

  // ---------------------------------------------------------------- a page

  lemma FoldMarksSnoc(current: Option<Mark>, added: seq<Entry>, e: Entry)
    ensures FoldMarks(current, added + [e]) == Advance(FoldMarks(current, added), e, KeysOf(added))
  {
    assert (added + [e])[..|added|] == added;
  }

  lemma {:induction false} InsertWindowsFold(db0: Db, db: Db, page: Page, n: nat, now: nat, conv: Conversation)
    requires n <= |page.entries| && PageReady(db0, db, page)
    requires InsertWindows(db0, db, page, n, now).Commit?
    ensures MarkOf(InsertWindows(db0, db, page, n, now).db, conv) ==
      if conv == ConversationOf(db, page.account)
         then FoldMarks(MarkOf(db, conv), AddedEntries(db0.messages, page.entries, n)) else MarkOf(db, conv)
  {
    hide Inv, MarkOf, InsertWindow, FoldMarks, Advance;
    if n > 0 {
      InsertWindowsFold(db0, db, page, n - 1, now, conv);
      InsertWindowsKeeps(db0, db, page, n - 1, now);
      var rest := InsertWindows(db0, db, page, n - 1, now);
      var e := page.entries[n - 1];
      var added := AddedEntries(db0.messages, page.entries, n - 1);
      if IsFresh(db0.messages, page.entries, n - 1) {
        var before := AddImages(rest.db, e);
        SameWindowsSameMark(rest.db, before, conv);
        OtherTablesKeep(rest.db, before);
        NewSource(db0.messages, page.entries, n - 1, rest.db.windows);
        InsertWindowKeeps(before, page.generation, e, KeysOf(added), now);
        InsertWindowAdvances(before, page.generation, e, KeysOf(added), now, conv);
        FoldMarksSnoc(MarkOf(db, conv), added, e);
      }
    } else {
      FoldNothing(MarkOf(db, conv));
    }
  }

  lemma FoldNothing(current: Option<Mark>)
    ensures FoldMarks(current, []) == current
  {}

  /** A committed page moves the open window along its inserted entries, and no other conversation's. */
  lemma CommitFolds(db: Db, page: Page, now: nat, conv: Conversation)
    requires Inv(db) && CommitPage(db, page, now).Commit?
    ensures page.account in db.accounts
    ensures MarkOf(CommitPage(db, page, now).db, conv)
      == if conv == ConversationOf(db, page.account)
         then FoldMarks(MarkOf(db, conv), AddedEntries(db.messages, page.entries, |page.entries|)) else MarkOf(db, conv)
  {
    hide Inv, SameIdentity, PageError, InsertAll, InsertWindows, AddedEntries, Finish, Deliverable, MarkOf, FoldMarks;
    StoredReady(db, page, now);
    var stored := InsertAll(db, Arrivals(page), now);
    InsertAllGrows(db, Arrivals(page), now);
    InsertWindowsFold(db, stored, page, |page.entries|, now, conv);
    SameWindowsSameMark(db, stored, conv);
    var moved := MoveCursor(InsertWindows(db, stored, page, |page.entries|, now).db, page.account, page.nextCursor);
    var added := AddedEntries(db.messages, page.entries, |page.entries|);
    SameWindowsSameMark(InsertWindows(db, stored, page, |page.entries|, now).db, moved, conv);
    FinishWindows(moved, ConversationOf(db, page.account), added, now);
    SameWindowsSameMark(moved, Finish(moved, ConversationOf(db, page.account), added, now), conv);
  }

  // ---------------------------------------------------------------- agreement with the sort

  lemma FoldStepMark(open: Entry, last: Entry, pageSources: set<MessageKey>)
    requires KeyOf(open) in pageSources
    ensures Advance(Some(EntryMark(open)), last, pageSources) == Some(EntryMark(Newest(open, last)))
  {
    hide EntryIsNewer;
  }

  lemma {:induction false} FoldFromNothing(added: seq<Entry>)
    requires added != []
    ensures FoldMarks(None, added) == Some(EntryMark(FoldNewest(added))) && FoldNewest(added) in added
  {
    hide Advance, Newest, EntryMark, EntryIsNewer;
    var init, last := added[..|added| - 1], added[|added| - 1];
    assert added == init + [last];
    if init != [] {
      FoldFromNothing(init);
      assert KeyOf(FoldNewest(init)) in KeysOf(init);
      FoldStepMark(FoldNewest(init), last, KeysOf(init));
      assert Newest(FoldNewest(init), last) in {FoldNewest(init), last} by { NewestIsOne(FoldNewest(init), last); }
    } else {
      FirstMark(last);
    }
  }

  lemma NewestIsOne(open: Entry, last: Entry)
    ensures Newest(open, last) == open || Newest(open, last) == last
  {}

  lemma FirstMark(e: Entry)
    ensures FoldMarks(None, [e]) == Some(EntryMark(e)) && FoldNewest([e]) == e
  {
    assert [e][..0] == [];
  }

  ghost predicate DistinctKeys(added: seq<Entry>) {
    forall i, j :: 0 <= i < j < |added| ==> KeyOf(added[i]) != KeyOf(added[j])
  }

  lemma {:induction false} AddedDistinct(messages: map<MessageKey, Inbound>, entries: seq<Entry>, n: nat)
    requires n <= |entries|
    ensures DistinctKeys(AddedEntries(messages, entries, n))
  {
    if n > 0 {
      AddedDistinct(messages, entries, n - 1);
      AddedFacts(messages, entries, n - 1);
      if IsFresh(messages, entries, n - 1) {
        var earlier := AddedEntries(messages, entries, n - 1);
        forall i | 0 <= i < |earlier| ensures KeyOf(earlier[i]) != KeyOf(entries[n - 1]) {
          assert earlier[i] in earlier;
        }
        DistinctSnoc(earlier, entries[n - 1]);
      }
    }
  }

  lemma DistinctSnoc(earlier: seq<Entry>, e: Entry)
    requires DistinctKeys(earlier) && forall i :: 0 <= i < |earlier| ==> KeyOf(earlier[i]) != KeyOf(e)
    ensures DistinctKeys(earlier + [e])
  {}

  /**
   Without an open window beforehand, a page that `compareEntries` orders leaves open the window of the last
   of its inserted entries in page order exactly when that entry stands in the page.
   */
  lemma PageOpensLast(db: Db, page: Page, now: nat)
    requires Inv(db) && CommitPage(db, page, now).Commit?
    requires MarkOf(db, ConversationOf(db, page.account)).None?
    requires var added := AddedEntries(db.messages, page.entries, |page.entries|);
      added != [] && PageOrder.Indexed(added) && Transitive(added)
    ensures var added := AddedEntries(db.messages, page.entries, |page.entries|);
      var mark := MarkOf(CommitPage(db, page, now).db, ConversationOf(db, page.account));
      && |StableSort(added)| == |added|
      && mark.Some?
      && (mark.value.source == KeyOf(StableSort(added)[|added| - 1]) <==>
            exists p :: 0 <= p < |added| && added[p] == StableSort(added)[|added| - 1] && Stands(added, p))
  {
    CommitFolds(db, page, now, ConversationOf(db, page.account));
    hide Inv, CommitPage, MarkOf, Stands, Transitive, PageOrder.Indexed, StableSort, FoldNewest;
    var conv, added := ConversationOf(db, page.account), AddedEntries(db.messages, page.entries, |page.entries|);
    FoldFromNothing(added);
    FoldAgreesExactly(added);
    LastIsAdded(db.messages, page.entries, |page.entries|);
    hide AddedEntries, KeyOf, FoldMarks;
  }

  /** The last entry of page order and the one that the fold leaves are the same if they have the same key. */
  lemma LastIsAdded(messages: map<MessageKey, Inbound>, entries: seq<Entry>, n: nat)
    requires n <= |entries| && AddedEntries(messages, entries, n) != []
    ensures var added := AddedEntries(messages, entries, n);
      && |StableSort(added)| == |added|
      && (forall e :: e in added && KeyOf(e) == KeyOf(StableSort(added)[|added| - 1]) ==>
            e == StableSort(added)[|added| - 1])
  {
    var added := AddedEntries(messages, entries, n);
    AddedDistinct(messages, entries, n);
    StableSortKeeps(added);
    var last := StableSort(added)[|added| - 1];
    assert last in StableSort(added);
    InMultiset(StableSort(added), added, last);
    hide StableSort, AddedEntries;
    forall e | e in added && KeyOf(e) == KeyOf(last) ensures e == last {
      var i :| 0 <= i < |added| && added[i] == e;
      var j :| 0 <= j < |added| && added[j] == last;
    }
  }

  // ---------------------------------------------------------------- provider sequences

  /** Among the entries inserted so far, the one with the highest provider sequence holds the open window. */
  ghost predicate HighestOpen(mark: Option<Mark>, inserted: set<Entry>) {
    && (mark.None? <==> inserted == {})
    && (mark.Some? ==> mark.value.providerSeq.Some? && exists e :: e in inserted && EntryMark(e) == mark.value)
    && (mark.Some? ==> forall e :: e in inserted ==>
          e.providerSeq.Some? && e.providerSeq.value <= mark.value.providerSeq.value)
  }

  /** Provider sequences identify the messages. */
  ghost predicate SeqsIdentify(entries: set<Entry>) {
    forall x, y :: x in entries && y in entries ==>
      x.providerSeq.Some? && (x.providerSeq == y.providerSeq ==> KeyOf(x) == KeyOf(y))
  }

  lemma AdvanceKeepsHighest(mark: Option<Mark>, inserted: set<Entry>, e: Entry, pageSources: set<MessageKey>)
    requires HighestOpen(mark, inserted) && SeqsIdentify(inserted + {e})
    requires forall x :: x in inserted ==> KeyOf(x) != KeyOf(e)
    ensures HighestOpen(Advance(mark, e, pageSources), inserted + {e})
  {
    assert e in inserted + {e};
    if mark.Some? {
      var x :| x in inserted && EntryMark(x) == mark.value;
      assert x in inserted + {e};
      assert x.providerSeq != e.providerSeq;
    }
  }

  ghost function EntrySet(added: seq<Entry>): set<Entry> { set e | e in added }

  lemma {:induction false} FoldKeepsHighest(mark: Option<Mark>, inserted: set<Entry>, added: seq<Entry>)
    requires HighestOpen(mark, inserted) && SeqsIdentify(inserted + EntrySet(added))
    requires forall i, x :: 0 <= i < |added| && x in inserted ==> KeyOf(x) != KeyOf(added[i])
    requires DistinctKeys(added)
    ensures HighestOpen(FoldMarks(mark, added), inserted + EntrySet(added))
  {
    if added == [] {
      assert inserted + EntrySet(added) == inserted;
    } else {
      var init, e := added[..|added| - 1], added[|added| - 1];
      assert inserted + EntrySet(added) == (inserted + EntrySet(init)) + {e};
      assert forall x :: x in inserted + EntrySet(init) ==> x in inserted + EntrySet(added);
      FoldKeepsHighest(mark, inserted, init);
      AdvanceKeepsHighest(FoldMarks(mark, init), inserted + EntrySet(init), e, KeysOf(init));
    }
  }

  /** The highest of a set does not depend on how the set was reached. */
  lemma HighestIsUnique(one: Option<Mark>, other: Option<Mark>, inserted: set<Entry>, inserted': set<Entry>)
    requires HighestOpen(one, inserted) && HighestOpen(other, inserted')
    requires KeysOfSet(inserted) == KeysOfSet(inserted') && SeqsIdentify(inserted + inserted')
    requires forall x, y :: x in inserted && y in inserted' && KeyOf(x) == KeyOf(y) ==> x.providerSeq == y.providerSeq
    ensures one.Some? == other.Some? && (one.Some? ==> one.value.source == other.value.source)
  {
    if inserted == {} {
      assert KeysOfSet(inserted') == {};
      assert forall y :: y in inserted' ==> KeyOf(y) in KeysOfSet(inserted');
    } else {
      var x0 :| x0 in inserted;
      assert KeyOf(x0) in KeysOfSet(inserted');
      var x :| x in inserted && EntryMark(x) == one.value;
      assert KeyOf(x) in KeysOfSet(inserted');
      var x' :| x' in inserted' && KeyOf(x') == KeyOf(x);
      var y :| y in inserted' && EntryMark(y) == other.value;
      assert KeyOf(y) in KeysOfSet(inserted);
      var y' :| y' in inserted && KeyOf(y') == KeyOf(y);
      assert x in inserted + inserted' && y in inserted + inserted';
    }
  }

  ghost function KeysOfSet(entries: set<Entry>): set<MessageKey> { set e | e in entries :: KeyOf(e) }
}
