/** The open window after any series of pages is that of the highest provider sequence, however they are split. */
module Paging {
  import opened Basics
  import opened Tables
  import opened PageOrder
  import opened Ledger
  import opened Inbox
  import opened PageCommit
  import opened Events
  import opened Invariants
  import opened InboxProofs
  import opened LedgerProofs
  import opened PageProofs
  import opened PageTheorems
  import opened WindowFold
  import opened RetentionProofs
  import opened Steps
  import opened Runs
  import opened Cursors

  // ---------------------------------------------------------------- what was inserted

  /** The entries of a conversation that an event inserts. */
  ghost function InsertedBy(db: Db, t: Tick, conv: Conversation): set<Entry> {
    match t.event
    case Poll(page) =>
      if CommitPage(db, page, t.now).Commit? && page.account in db.accounts && ConversationOf(db, page.account) == conv
      then EntrySet(AddedEntries(db.messages, page.entries, |page.entries|)) else {}
    case _ => {}
  }

  ghost function Inserted(run: seq<Tick>, conv: Conversation): set<Entry> {
    if run == [] then {}
    else
      Inserted(run[..|run| - 1], conv)
        + InsertedBy(Final(run[..|run| - 1]), run[|run| - 1], conv)
  }

  /** A cleanup closes the open window of the conversation. */
  ghost predicate ClosesWindow(db: Db, now: nat, conv: Conversation) {
    && Cleanup(db, now).Commit?
    && exists w ::
         && w in db.windows && db.windows[w].conv == conv
         && Closable(CleanAttempts(db.attempts, now), CleanMessages(db.messages, now), w, db.windows[w], now)
  }

  /** Rotation, deletion of the account and the closure of its window end the series of pages. */
  ghost predicate Interferes(db: Db, t: Tick, conv: Conversation) {
    match t.event
    case Rotate(account, _, _) => account == conv.account
    case Delete(account) => account == conv.account
    case Retain => ClosesWindow(db, t.now, conv)
    case _ => false
  }

  ghost predicate Undisturbed(run: seq<Tick>, conv: Conversation) {
    run != [] ==> Undisturbed(run[..|run| - 1], conv) && !Interferes(Final(run[..|run| - 1]), run[|run| - 1], conv)
  }

  // ---------------------------------------------------------------- events that keep the open window

  lemma StillKeepsMark(db: Db, after: Db, conv: Conversation)
    requires Inv(db) && Inv(after) && StillStep(db, after)
    ensures MarkOf(after, conv) == MarkOf(db, conv)
  {
    assert SameOpen(db.windows, after.windows, conv) by {
      hide Inv, MessagesStep, AttemptsStep, AuthsStep, SentStep;
    }
    hide StillStep, Inv;
    SameOpenSameMark(db, after, conv);
  }

  lemma CloseKeepsOpen(windows: map<WindowId, Window>, attempts: map<AttemptKey, Attempt>,
                       messages: map<MessageKey, Inbound>, now: nat, conv: Conversation)
    requires forall w :: w in windows && windows[w].conv == conv ==> !Closable(attempts, messages, w, windows[w], now)
    ensures SameOpen(windows, CloseExpired(windows, attempts, messages, now), conv)
  {
    hide Closable;
    assert forall w :: w in windows && Closable(attempts, messages, w, windows[w], now) ==> windows[w].conv != conv;
  }

  lemma KeptKeepsOpen(db: Db, now: nat, conv: Conversation)
    ensures SameOpen(db.windows, KeptWindows(db, now), conv)
  {}

  lemma SameOpenTwice(a: map<WindowId, Window>, b: map<WindowId, Window>, c: map<WindowId, Window>, conv: Conversation)
    requires SameOpen(a, b, conv) && SameOpen(b, c, conv)
    ensures SameOpen(a, c, conv)
  {}

  lemma RetainKeepsMark(db: Db, now: nat, conv: Conversation)
    requires Inv(db) && Inv(After(db, Cleanup(db, now))) && !ClosesWindow(db, now, conv)
    ensures MarkOf(After(db, Cleanup(db, now)), conv) == MarkOf(db, conv)
  {
    hide Inv, Cleanup, Closable;
    if Cleanup(db, now).Commit? {
      var retained := Retention(db, now);
      CloseKeepsOpen(db.windows, retained.attempts, retained.messages, now, conv);
      KeptKeepsOpen(retained, now, conv);
      SameOpenTwice(db.windows, retained.windows, KeptWindows(retained, now), conv);
      CleanupWindows(db, now);
      hide SameOpen, MarkOf;
      SameOpenSameMark(db, After(db, Cleanup(db, now)), conv);
    }
  }

  lemma CleanupWindows(db: Db, now: nat)
    ensures Cleanup(db, now).Commit? ==> Cleanup(db, now).db.windows == KeptWindows(Retention(db, now), now)
  {
    hide Retention, KeptWindows, Dangling;
  }

  lemma RetireKeepsMark(db: Db, account: string, reason: Reason, now: nat, conv: Conversation)
    requires account != conv.account
    ensures SameOpen(db.windows, RetireWindows(db, OpenWindowsOf(db.windows, account), Cancelled, reason, now).windows,
      conv)
  {
    hide FailPending, WindowAttempts, WindowSessions, CloseSessions;
  }

  lemma RotateKeepsMark(db: Db, account: string, owner: string, generation: nat, now: nat, conv: Conversation)
    requires account != conv.account
    ensures SameOpen(db.windows, After(db, RotateAccount(db, account, owner, generation, now)).windows, conv)
  {
    RetireKeepsMark(db, account, GenerationChanged, now, conv);
    hide RetireWindows, OpenWindowsOf;
  }

  lemma DeleteKeepsMark(db: Db, account: string, now: nat, conv: Conversation)
    requires account != conv.account
    ensures SameOpen(db.windows, After(db, DeleteAccount(db, account, now)).windows, conv)
  {
    RetireKeepsMark(db, account, AccountDeleted, now, conv);
    hide RetireWindows, OpenWindowsOf, OfAccount;
  }

  lemma AccountEventKeepsMark(db: Db, t: Tick, conv: Conversation)
    requires t.event.Register? || t.event.SetCursor? || t.event.Rotate? || t.event.Delete?
    requires Inv(db) && Inv(Apply(db, t.event, t.now)) && !Interferes(db, t, conv)
    ensures MarkOf(Apply(db, t.event, t.now), conv) == MarkOf(db, conv)
  {
    hide Inv, MarkOf, RotateAccount, DeleteAccount;
    var after := Apply(db, t.event, t.now);
    if t.event.Rotate? {
      RotateKeepsMark(db, t.event.account, t.event.owner, t.event.generation, t.now, conv);
      SameOpenSameMark(db, after, conv);
    } else if t.event.Delete? {
      DeleteKeepsMark(db, t.event.account, t.now, conv);
      SameOpenSameMark(db, after, conv);
    } else {
      SameWindowsSameMark(db, after, conv);
    }
  }

  lemma StillEventKeepsMark(db: Db, t: Tick, conv: Conversation)
    requires Inv(db) && Enabled(db, t.event, t.now) && !MovesAccounts(t.event) && !t.event.Retain?
    ensures MarkOf(Apply(db, t.event, t.now), conv) == MarkOf(db, conv)
  {
    hide Inv, StillStep, QuietStep, StepOk, MarkOf, Enabled, Apply;
    ApplyKeeps(db, t.event, t.now);
    ApplySteps(db, t.event, t.now);
    StillKeepsMark(db, Apply(db, t.event, t.now), conv);
  }

  lemma RetainEventKeepsMark(db: Db, t: Tick, conv: Conversation)
    requires Inv(db) && t.event.Retain? && !Interferes(db, t, conv)
    ensures MarkOf(Apply(db, t.event, t.now), conv) == MarkOf(db, conv)
  {
    hide Inv, MarkOf, Cleanup;
    ApplyKeeps(db, t.event, t.now);
    RetainKeepsMark(db, t.now, conv);
  }

  lemma QuietEventKeepsMark(db: Db, t: Tick, conv: Conversation)
    requires Inv(db) && Enabled(db, t.event, t.now) && !t.event.Poll? && !Interferes(db, t, conv)
    ensures MarkOf(Apply(db, t.event, t.now), conv) == MarkOf(db, conv)
  {
    hide Inv, MarkOf, Apply, Enabled, Interferes;
    if MovesAccounts(t.event) {
      ApplyKeeps(db, t.event, t.now);
      AccountEventKeepsMark(db, t, conv);
    } else if t.event.Retain? {
      RetainEventKeepsMark(db, t, conv);
    } else {
      StillEventKeepsMark(db, t, conv);
    }
  }

  // ---------------------------------------------------------------- the theorem

  /** Every inserted entry is stored. */
  ghost predicate AllStored(db: Db, inserted: set<Entry>) {
    forall e :: e in inserted ==> KeyOf(e) in db.messages
  }

  lemma PollKeepsHighest(db: Db, page: Page, now: nat, conv: Conversation, inserted: set<Entry>)
    requires Inv(db) && CommitPage(db, page, now).Commit? && ConversationOf(db, page.account) == conv
    requires AllStored(db, inserted) && HighestOpen(MarkOf(db, conv), inserted)
    requires SeqsIdentify(inserted + EntrySet(AddedEntries(db.messages, page.entries, |page.entries|)))
    ensures HighestOpen(MarkOf(CommitPage(db, page, now).db, conv),
                        inserted + EntrySet(AddedEntries(db.messages, page.entries, |page.entries|)))
  {
    var added := AddedEntries(db.messages, page.entries, |page.entries|);
    CommitFolds(db, page, now, conv);
    AddedDistinct(db.messages, page.entries, |page.entries|);
    AddedFacts(db.messages, page.entries, |page.entries|);
    forall i, x | 0 <= i < |added| && x in inserted ensures KeyOf(x) != KeyOf(added[i]) {
      assert added[i] in added;
    }
    hide Inv, CommitPage, MarkOf, HighestOpen, SeqsIdentify, FoldMarks, EntrySet, AddedEntries;
    FoldKeepsHighest(MarkOf(db, conv), inserted, added);
  }

  lemma PollStores(db: Db, page: Page, now: nat)
    requires Inv(db) && CommitPage(db, page, now).Commit?
    ensures AllStored(CommitPage(db, page, now).db, EntrySet(AddedEntries(db.messages, page.entries, |page.entries|)))
  {
    hide Inv, SameIdentity, PageError, InsertAll, InsertWindows, AddedEntries, Finish, Deliverable;
    StoredReady(db, page, now);
    StoredAfterInsert(db, page, now);
    var stored, n := InsertAll(db, Arrivals(page), now), |page.entries|;
    InsertWindowsKeeps(db, stored, page, n, now);
    var moved := MoveCursor(InsertWindows(db, stored, page, n, now).db, page.account, page.nextCursor);
    var conv, added := ConversationOf(db, page.account), AddedEntries(db.messages, page.entries, n);
    FinishAbsorbs(moved, conv, added, now);
  }

  lemma TickKeepsStored(db: Db, t: Tick, conv: Conversation, inserted: set<Entry>)
    requires Inv(db) && AllStored(db, inserted) && !Interferes(db, t, conv)
    requires forall e :: e in inserted ==> KeyOf(e).account == conv.account
    ensures AllStored(Next(db, t), inserted)
  {
    hide Inv, Next;
    forall e | e in inserted ensures KeyOf(e) in Next(db, t).messages {
      TickKeepsMessages(db, t, KeyOf(e));
    }
  }

  lemma InsertedBelong(db: Db, t: Tick, conv: Conversation)
    ensures forall e :: e in InsertedBy(db, t, conv) ==> KeyOf(e).account == conv.account
  {
    if t.event.Poll? && CommitPage(db, t.event.page, t.now).Commit? {
      var page := t.event.page;
      PageErrorNone(page.entries, ConversationOf(db, page.account), page.expectedCursor);
      AddedFacts(db.messages, page.entries, |page.entries|);
    }
  }

  /** Along an undisturbed run the open window is that of the highest sequence inserted so far. */
  lemma {:induction false} HighestStaysOpen(run: seq<Tick>, conv: Conversation)
    requires Undisturbed(run, conv) && SeqsIdentify(Inserted(run, conv))
    ensures HighestOpen(MarkOf(Final(run), conv), Inserted(run, conv))
    ensures AllStored(Final(run), Inserted(run, conv))
    ensures forall e :: e in Inserted(run, conv) ==> KeyOf(e).account == conv.account
  {
    hide Inv, Next, MarkOf, HighestOpen, Interferes;
    if run == [] {
      NothingOpen(conv);
    } else {
      var init, t := run[..|run| - 1], run[|run| - 1];
      var db := Final(init);
      Always(init);
      assert SeqsIdentify(Inserted(init, conv)) by { SeqsIdentifyLess(Inserted(init, conv), Inserted(run, conv)); }
      HighestStaysOpen(init, conv);
      InsertedBelong(db, t, conv);
      TickKeepsStored(db, t, conv, Inserted(init, conv));
      HighestAfter(db, t, conv, Inserted(init, conv));
    }
  }

  lemma SeqsIdentifyLess(less: set<Entry>, entries: set<Entry>)
    requires less <= entries && SeqsIdentify(entries)
    ensures SeqsIdentify(less)
  {}

  lemma NothingOpen(conv: Conversation)
    ensures HighestOpen(MarkOf(EMPTY_DB, conv), {})
  {}

  lemma HighestAfter(db: Db, t: Tick, conv: Conversation, inserted: set<Entry>)
    requires Inv(db) && AllStored(db, inserted) && HighestOpen(MarkOf(db, conv), inserted)
    requires !Interferes(db, t, conv) && SeqsIdentify(inserted + InsertedBy(db, t, conv))
    ensures HighestOpen(MarkOf(Next(db, t), conv), inserted + InsertedBy(db, t, conv))
    ensures AllStored(Next(db, t), InsertedBy(db, t, conv))
  {
    hide Inv, MarkOf, HighestOpen, CommitPage, SeqsIdentify, ConversationOf;
    if t.event.Poll? {
      var page := t.event.page;
      if CommitPage(db, page, t.now).Commit? {
        CommitFolds(db, page, t.now, conv);
        PollStores(db, page, t.now);
        if ConversationOf(db, page.account) == conv {
          PollKeepsHighest(db, page, t.now, conv, inserted);
        } else {
          assert inserted + InsertedBy(db, t, conv) == inserted;
        }
      } else {
        assert inserted + InsertedBy(db, t, conv) == inserted;
      }
    } else {
      assert inserted + InsertedBy(db, t, conv) == inserted;
      hide Apply;
      if Enabled(db, t.event, t.now) { QuietEventKeepsMark(db, t, conv); }
    }
  }

  /**
   Two runs that insert the same messages leave the same window open, however the messages are split
   into pages, ordered or repeated, and whatever else happens in between.
   */
  lemma PagingIndependent(run: seq<Tick>, other: seq<Tick>, conv: Conversation)
    requires Undisturbed(run, conv) && Undisturbed(other, conv)
    requires SeqsIdentify(Inserted(run, conv) + Inserted(other, conv))
    requires KeysOfSet(Inserted(run, conv)) == KeysOfSet(Inserted(other, conv))
    requires forall x, y :: x in Inserted(run, conv) && y in Inserted(other, conv) && KeyOf(x) == KeyOf(y) ==>
      x.providerSeq == y.providerSeq
    ensures var one, two := MarkOf(Final(run), conv), MarkOf(Final(other), conv);
      one.Some? == two.Some? && (one.Some? ==> one.value.source == two.value.source)
  {
    hide MarkOf, Undisturbed, Inserted, Final, HighestOpen;
    SeqsIdentifyLess(Inserted(run, conv), Inserted(run, conv) + Inserted(other, conv));
    SeqsIdentifyLess(Inserted(other, conv), Inserted(run, conv) + Inserted(other, conv));
    HighestStaysOpen(run, conv);
    HighestStaysOpen(other, conv);
    hide KeysOfSet, SeqsIdentify, AllStored;
    HighestIsUnique(MarkOf(Final(run), conv), MarkOf(Final(other), conv), Inserted(run, conv), Inserted(other, conv));
  }
}
