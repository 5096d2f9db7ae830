/** Short runs that reach the states the theorems speak of, and the inputs at which weaker claims fail. */
module Witnesses {
  import opened Basics
  import opened Tables
  import opened PageOrder
  import opened Ledger
  import opened Inbox
  import opened PageCommit
  import opened Events
  import opened Invariants
  import opened InboxProofs
  import opened LedgerProofs
  import opened PageProofs
  import opened PageTheorems
  import opened PageFailures
  import opened WindowFold
  import opened Steps
  import opened Runs
  import opened Safety
  import opened Quota
  import opened Cursors
  import opened Reservations
  import opened Paging

  // ---------------------------------------------------------------- the cast

  const CONV := Conversation(WeixinIlink, "a", "o")

  function NewEntry(id: string, seqNo: nat, cursor: string): Entry {
    Entry(CONV, id, Some(seqNo), 0, 0, cursor, Payload("", "hello", 0), [])
  }

  function OnePage(generation: nat, cursor: string, next: string, e: Entry): Page {
    Page("a", generation, cursor, next, [e], false, None)
  }

  const REGISTRATION := Tick(Register("a", "o"), 0)
  const FIRST := OnePage(1, "", "c", NewEntry("m", 2, ""))
  const SECOND := OnePage(1, "c", "d", NewEntry("n", 1, "c"))
  const KEY := MessageKey(WeixinIlink, "a", "m")

  // ---------------------------------------------------------------- single steps

  lemma Registered()
    ensures Final([REGISTRATION]) == EMPTY_DB.(accounts := map["a" := Account("o", 1, Active, "")])
  {
    FinalSnoc([], REGISTRATION);
    assert [] + [REGISTRATION] == [REGISTRATION];
  }

  lemma OneAdded(messages: map<MessageKey, Inbound>, e: Entry)
    requires KeyOf(e) !in messages
    ensures AddedEntries(messages, [e], 1) == [e]
  {
    assert AddedEntries(messages, [e], 0) == [];
  }

  /** A page with one new entry commits. */
  lemma OneEntryCommits(db: Db, page: Page, now: nat)
    requires Inv(db) && |page.entries| == 1 && KeyOf(page.entries[0]) !in db.messages
    requires CursorMatches(db, page.account, page.generation, page.expectedCursor)
    requires page.entries[0].conv == ConversationOf(db, page.account) && page.entries[0].cursor == page.expectedCursor
    requires page.entries[0].providerId != "" && page.entries[0].sentAt <= now + MAX_CLOCK_SKEW
    ensures CommitPage(db, page, now).Commit?
    ensures AddedEntries(db.messages, page.entries, |page.entries|) == page.entries
    ensures CommitPage(db, page, now).db.messages.Keys == db.messages.Keys + {KeyOf(page.entries[0])}
    ensures CommitPage(db, page, now).db.accounts
      == db.accounts[page.account := db.accounts[page.account].(cursor := page.nextCursor)]
  {
    var e := page.entries[0];
    assert page.entries == [e] && page.entries[..0] == [];
    assert PageError(page.entries, ConversationOf(db, page.account), page.expectedCursor).None?;
    OneAdded(db.messages, e);
    assert KeysOf([e]) == {KeyOf(e)};
    hide Inv, CommitPage, PageError, KeysOf, AddedEntries;
    ValidPageOutcome(db, page, now);
    PollKeys(db, page, now);
    PollAccounts(db, page, now);
  }

  lemma PollKeys(db: Db, page: Page, now: nat)
    requires Inv(db) && CommitPage(db, page, now).Commit?
    ensures CommitPage(db, page, now).db.messages.Keys
      == db.messages.Keys + KeysOf(AddedEntries(db.messages, page.entries, |page.entries|))
  {
    hide Inv, SameIdentity, PageError, InsertAll, InsertWindows, AddedEntries, Finish, Deliverable, KeysOf;
    StoredReady(db, page, now);
    StoredAfterInsert(db, page, now);
    InsertWindowsKeeps(db, InsertAll(db, Arrivals(page), now), page, |page.entries|, now);
    var moved := MoveCursor(InsertWindows(db, InsertAll(db, Arrivals(page), now), page, |page.entries|, now).db,
                            page.account, page.nextCursor);
    FinishAbsorbs(moved, ConversationOf(db, page.account), AddedEntries(db.messages, page.entries, |page.entries|),
      now);
  }

  // ---------------------------------------------------------------- two pages

  const POLLED := [REGISTRATION, Tick(Poll(FIRST), 0)]

  lemma FirstPollCommits()
    ensures CommitPage(Final([REGISTRATION]), FIRST, 0).Commit?
    ensures Final(POLLED) == CommitPage(Final([REGISTRATION]), FIRST, 0).db
    ensures Final(POLLED).messages.Keys == {KEY}
    ensures Final(POLLED).accounts == map["a" := Account("o", 1, Active, "c")]
    ensures AddedEntries(Final([REGISTRATION]).messages, FIRST.entries, 1) == FIRST.entries
  {
    Registered();
    Always([REGISTRATION]);
    FinalSnoc([REGISTRATION], Tick(Poll(FIRST), 0));
    assert [REGISTRATION] + [Tick(Poll(FIRST), 0)] == POLLED;
    hide Inv, CommitPage, Final, AddedEntries;
    OneEntryCommits(Final([REGISTRATION]), FIRST, 0);
  }

  const TWICE := [REGISTRATION, Tick(Poll(FIRST), 0), Tick(Poll(SECOND), 0)]

  lemma SecondPollCommits()
    ensures CommitPage(Final(POLLED), SECOND, 0).Commit?
    ensures AddedEntries(Final(POLLED).messages, SECOND.entries, 1) == SECOND.entries
  {
    FirstPollCommits();
    Always(POLLED);
    hide Inv, CommitPage, Final, AddedEntries;
    OneEntryCommits(Final(POLLED), SECOND, 0);
  }

  lemma FirstInserted()
    ensures InsertedBy(Final([REGISTRATION]), Tick(Poll(FIRST), 0), CONV) == {FIRST.entries[0]}
  {
    FirstPollCommits();
    Registered();
    assert EntrySet(FIRST.entries) == {FIRST.entries[0]};
    hide Final, CommitPage, AddedEntries, EntrySet;
  }

  lemma SecondInserted()
    ensures InsertedBy(Final(POLLED), Tick(Poll(SECOND), 0), CONV) == {SECOND.entries[0]}
  {
    FirstPollCommits();
    SecondPollCommits();
    assert EntrySet(SECOND.entries) == {SECOND.entries[0]};
    hide Final, CommitPage, AddedEntries, EntrySet;
  }

  lemma BothInserted()
    ensures Inserted(TWICE, CONV) == {FIRST.entries[0], SECOND.entries[0]}
  {
    FirstInserted();
    SecondInserted();
    hide Final, InsertedBy;
    assert TWICE[..2] == POLLED && POLLED[..1] == [REGISTRATION] && [REGISTRATION][..0] == [];
    assert Inserted([], CONV) == {};
    assert Inserted([REGISTRATION], CONV) == {} by { RegistrationInserts(); }
    assert Inserted(POLLED, CONV) == {FIRST.entries[0]};
  }

  lemma RegistrationInserts()
    ensures Inserted([REGISTRATION], CONV) == {}
  {
    assert [REGISTRATION][..0] == [];
    hide Final;
  }

  lemma HighestOfTwo(mark: Option<Mark>)
    requires HighestOpen(mark, {FIRST.entries[0], SECOND.entries[0]})
    ensures mark.Some? && mark.value.source == KEY
  {
    var x, y := FIRST.entries[0], SECOND.entries[0];
    assert x.providerSeq == Some(2) && y.providerSeq == Some(1) && KeyOf(x) == KEY;
    assert x in {x, y};
  }

  lemma TwoIdentified()
    ensures SeqsIdentify({FIRST.entries[0], SECOND.entries[0]}) && |{FIRST.entries[0], SECOND.entries[0]}| == 2
  {
    var x, y := FIRST.entries[0], SECOND.entries[0];
    assert x.providerSeq == Some(2) && y.providerSeq == Some(1) && x != y;
  }

  /** An undisturbed run of two pages that inserts two messages: the paging theorems speak of such runs. */
  lemma UndisturbedRun()
    ensures Undisturbed(TWICE, CONV) && |Inserted(TWICE, CONV)| == 2 && SeqsIdentify(Inserted(TWICE, CONV))
    ensures MarkOf(Final(TWICE), CONV).Some? && MarkOf(Final(TWICE), CONV).value.source == KEY
  {
    hide Final, Undisturbed, Inserted, MarkOf, HighestOpen, SeqsIdentify, AllStored;
    BothInserted();
    UndisturbedTicks();
    TwoIdentified();
    HighestStaysOpen(TWICE, CONV);
    HighestOfTwo(MarkOf(Final(TWICE), CONV));
  }

  lemma UndisturbedTicks()
    ensures Undisturbed(TWICE, CONV)
  {
    hide Final;
    assert TWICE[..2] == POLLED && POLLED[..1] == [REGISTRATION] && [REGISTRATION][..0] == [];
    assert Undisturbed([], CONV);
    assert Undisturbed([REGISTRATION], CONV);
    assert Undisturbed(POLLED, CONV);
  }

  // ---------------------------------------------------------------- a reply on the wire

  /** What the first page leaves: one open window, and the message waiting. */
  ghost predicate OneOpen(db: Db) {
    && db.accounts == map["a" := Account("o", 1, Active, "c")]
    && db.messages.Keys == {KEY} && db.messages[KEY].conv == CONV && db.messages[KEY].status == Received
    && db.windows.Keys == {1} && db.windows[1].state == Open && db.windows[1].conv == CONV
    && db.windows[1].source == KEY
    && db.windows[1].generation == 1 && db.windows[1].reserved == 0 && db.windows[1].transmitted == 0
    && db.windows[1].expiresAt == WINDOW_LIFETIME && db.windows[1].updatedAt == 0
    && db.nextWindow == 2 && db.attempts == map[] && db.sessions == map[]
  }

  /** The loop over the entries of the first page. */
  lemma FirstWindow(db: Db, stored: Db)
    requires db.windows == map[] && db.nextWindow == 1 && db.attempts == map[] && db.sessions == map[]
    requires stored == db.(inbox := stored.inbox, messages := stored.messages) && KEY in stored.messages
    requires KEY !in db.messages
    ensures var txn := InsertWindows(db, stored, FIRST, 1, 0);
      && txn.Commit? && txn.db.nextWindow == 2 && txn.db.attempts == map[] && txn.db.sessions == map[]
      && txn.db.windows == map[1 := NewWindow(1, FIRST.entries[0], stored.messages[KEY].inboxSeq, Open, 0)]
  {
    var e := FIRST.entries[0];
    assert InsertWindows(db, stored, FIRST, 0, 0) == Commit(stored, []);
    assert IsFresh(db.messages, FIRST.entries, 0);
    assert OpenWindow(stored, CONV).None?;
    assert AddImages(stored, e) == stored && AddedEntries(db.messages, FIRST.entries, 0) == [];
    assert InsertWindow(stored, 1, e, KeysOf([]), 0).Commit?;
  }

  lemma PolledOpen()
    ensures OneOpen(Final(POLLED))
  {
    var db := Final([REGISTRATION]);
    Registered();
    Always([REGISTRATION]);
    Always(POLLED);
    FirstPollCommits();
    hide Inv, Final, InsertAll, InsertWindows, AddedEntries, Finish, Deliverable, SameIdentity, PageError, CommitPage;
    PollTables(db, FIRST, 0);
    PollSessions(db, FIRST, 0);
    var stored := InsertAll(db, Arrivals(FIRST), 0);
    InsertAllGrows(db, Arrivals(FIRST), 0);
    StoredAfterInsert(db, FIRST, 0);
    assert KeysOf(FIRST.entries) == {KEY} by { assert FIRST.entries == [FIRST.entries[0]]; }
    FirstWindow(db, stored);
    PolledMessage();
    WindowFacts(Final(POLLED), 1);
  }

  /** A committed page leaves the sessions and window ids as the loop over its entries did. */
  lemma PollSessions(db: Db, page: Page, now: nat)
    requires Inv(db) && CommitPage(db, page, now).Commit?
    ensures var windowed := InsertWindows(db, InsertAll(db, Arrivals(page), now), page, |page.entries|, now);
      && windowed.Commit? && CommitPage(db, page, now).db.sessions == windowed.db.sessions
      && CommitPage(db, page, now).db.nextWindow == windowed.db.nextWindow
  {
    hide Inv, SameIdentity, PageError, InsertAll, InsertWindows, AddedEntries, Finish, Deliverable;
    PollTables(db, page, now);
    var windowed := InsertWindows(db, InsertAll(db, Arrivals(page), now), page, |page.entries|, now);
    var moved := MoveCursor(windowed.db, page.account, page.nextCursor);
    FinishElsewhere(moved, ConversationOf(db, page.account), AddedEntries(db.messages, page.entries, |page.entries|),
      now);
  }

  /** The message of the first page is delivered. */
  lemma PolledMessage()
    ensures KEY in Final(POLLED).messages && Final(POLLED).messages[KEY].status == Received
  {
    var db := Final([REGISTRATION]);
    Registered();
    Always([REGISTRATION]);
    Always(POLLED);
    FirstPollCommits();
    hide Inv, Final, InsertAll, InsertWindows, AddedEntries, CommitPage, FoldMarks, MarkOf;
    CommitFolds(db, FIRST, 0, CONV);
    CommitDelivers(db, FIRST, 0);
    FirstFold(db);
    assert KeysOf(FIRST.entries) == {KEY} by { assert FIRST.entries == [FIRST.entries[0]]; }
    MarkIsOpen(Final(POLLED));
    hide Delivered, NothingDelivered;
    assert Delivered(db, Final(POLLED), CONV, FIRST.entries, KEY);
    DeliveredWaits(db, Final(POLLED), FIRST.entries);
  }

  lemma DeliveredWaits(db: Db, after: Db, added: seq<Entry>)
    requires Delivered(db, after, CONV, added, KEY)
    ensures KEY in after.messages && after.messages[KEY].status == Received
  {
    assert KEY in Waiting(after, CONV);
    hide ImagesFor, WaitingLines, PageSummaries, Join, ImageNote, Take;
  }

  lemma FirstFold(db: Db)
    requires db.windows == map[]
    ensures FoldMarks(MarkOf(db, CONV), FIRST.entries) == Some(EntryMark(FIRST.entries[0]))
  {
    assert FIRST.entries[..0] == [];
    assert OpenWindow(db, CONV).None?;
  }

  lemma MarkIsOpen(db: Db)
    ensures MarkOf(db, CONV).Some? <==> OpenWindow(db, CONV).Some?
    ensures OpenWindow(db, CONV).Some? ==>
      db.windows[OpenWindow(db, CONV).value].source == MarkOf(db, CONV).value.source
  {}

  const OPENED := POLLED + [Tick(Claimed(KEY), 0), Tick(OpenSession(0, KEY, KEY, 60000), 0)]

  /** A session on the open window. */
  ghost predicate Answering(db: Db) {
    && db.accounts == map["a" := Account("o", 1, Active, "c")]
    && db.messages.Keys == {KEY} && db.messages[KEY].conv == CONV && db.messages[KEY].status == Processing
    && db.windows.Keys == {1} && db.windows[1].state == Open && db.windows[1].conv == CONV
    && db.windows[1].generation == 1 && db.windows[1].reserved == 0 && db.windows[1].transmitted == 0
    && db.windows[1].expiresAt == WINDOW_LIFETIME && db.attempts == map[]
    && 0 in db.sessions && db.sessions[0] == Session(KEY, CONV, Some(1), db.windows[1].sourceSeq, 60000, 0)
  }

  lemma ClaimThenSession(db: Db)
    requires Inv(db) && OneOpen(db)
    ensures Answering(Next(Next(db, Tick(Claimed(KEY), 0)), Tick(OpenSession(0, KEY, KEY, 60000), 0)))
  {
    WindowFacts(db, 1);
    hide Inv;
    ClaimStep(db);
    SessionStep(db.(messages := db.messages[KEY := db.messages[KEY].(status := Processing, updatedAt := 0)]));
    hide Next;
  }

  lemma ClaimStep(db: Db)
    requires OneOpen(db)
    ensures Next(db, Tick(Claimed(KEY), 0))
         == db.(messages := db.messages[KEY := db.messages[KEY].(status := Processing, updatedAt := 0)])
  {}

  lemma SessionStep(claimed: Db)
    requires KEY in claimed.messages && claimed.messages[KEY].status == Processing
    requires OneOpen(claimed.(messages := claimed.messages[KEY := claimed.messages[KEY].(status := Received)]))
    requires claimed.windows[1].sourceSeq == claimed.messages[KEY].inboxSeq
    ensures Answering(Next(claimed, Tick(OpenSession(0, KEY, KEY, 60000), 0)))
  {
    BoundaryFound(claimed);
    hide Boundary;
    var after := Next(claimed, Tick(OpenSession(0, KEY, KEY, 60000), 0));
    assert after == claimed.(sessions := after.sessions);
  }

  lemma BoundaryFound(db: Db)
    requires KEY in db.messages && db.messages[KEY].conv == CONV && db.windows.Keys == {1}
    requires db.windows[1].state == Open
    requires db.windows[1].conv == CONV && db.windows[1].source == KEY
    requires db.windows[1].sourceSeq == db.messages[KEY].inboxSeq
    requires db.windows[1].expiresAt > 0 && db.nextWindow == 2
    ensures Boundary(db, KEY, KEY, 0) == Some((db.messages[KEY].inboxSeq, Some(1)))
  {
    assert SourceWindow(db, KEY) == Some(1);
  }

  lemma OpenedAnswers()
    ensures Answering(Final(OPENED))
  {
    PolledOpen();
    Always(POLLED);
    FinalSnoc(POLLED, Tick(Claimed(KEY), 0));
    FinalSnoc(POLLED + [Tick(Claimed(KEY), 0)], Tick(OpenSession(0, KEY, KEY, 60000), 0));
    assert POLLED + [Tick(Claimed(KEY), 0)] + [Tick(OpenSession(0, KEY, KEY, 60000), 0)] == OPENED;
    hide Inv, Final, Next, OneOpen, Answering;
    ClaimThenSession(Final(POLLED));
  }

  const ATTEMPT := AttemptKey(KEY, 0)

  lemma PrepareReserves(db: Db)
    requires Answering(db)
    ensures var after := Next(db, Tick(Prepare(0, true), 0));
      && after.attempts.Keys == {ATTEMPT} && after.attempts[ATTEMPT].status == Pending
      && after.attempts[ATTEMPT].window == Some(1) && after.attempts[ATTEMPT].conv == CONV
      && after == db.(attempts := after.attempts, windows := db.windows[1 := after.windows[1]])
      && after.windows[1] == db.windows[1].(next := after.windows[1].next, reserved := 1, updatedAt := 0)
  {
    NoAttempts(KEY, MAX_ATTEMPTS);
    SessionWorks(db);
    ReservedTxn(db, 0, 1, true, 0);
    hide SessionError, NextIndex, PrepareReply, HasSessionRow;
    var after := Next(db, Tick(Prepare(0, true), 0));
    assert after == PrepareReply(db, 0, true, 0).db;
  }

  lemma SessionWorks(db: Db)
    requires && 0 in db.sessions && 1 in db.windows && KEY in db.messages && "a" in db.accounts
    requires db.sessions[0] == Session(KEY, CONV, Some(1), db.windows[1].sourceSeq, 60000, 0)
    requires db.messages[KEY].status == Processing && db.accounts["a"].status == Active
    requires db.accounts["a"].generation == 1
    requires db.windows[1].state == Open && db.windows[1].conv == CONV && db.windows[1].generation == 1
    requires db.windows[1].expiresAt == WINDOW_LIFETIME
    ensures SessionError(db, 0, 0).None? && HasSessionRow(db, 0)
  {}

  const RESERVED := OPENED + [Tick(Prepare(0, true), 0)]
  const SENT := RESERVED + [Tick(Start(0, ATTEMPT), 0)]
  const LEAKED := RESERVED + [Tick(SuppressGroup(KEY), 0)]

  lemma StartTransmits(db: Db)
    requires Answering(db)
    ensures var after := Next(Next(db, Tick(Prepare(0, true), 0)), Tick(Start(0, ATTEMPT), 0));
      1 in after.windows && after.windows[1].transmitted == 1 && ATTEMPT in after.attempts
        && after.attempts[ATTEMPT].status == Sending
  {
    PrepareReserves(db);
    var prepared := Next(db, Tick(Prepare(0, true), 0));
    hide PrepareReply;
    SessionWorks(prepared);
    hide SessionError;
    assert !SendingIn(prepared.attempts, CONV);
  }

  /** A run that puts a reply on the wire, so the quota theorems are not about unreachable rows. */
  lemma ReplyIsSent()
    ensures 1 in Final(SENT).windows && Final(SENT).windows[1].transmitted == 1 && Sends(SENT, 1) == 1
    ensures ATTEMPT in Final(SENT).attempts && Final(SENT).attempts[ATTEMPT].status == Sending
  {
    OpenedAnswers();
    FinalSnoc(OPENED, Tick(Prepare(0, true), 0));
    FinalSnoc(RESERVED, Tick(Start(0, ATTEMPT), 0));
    hide Final, Next, Answering, Sends;
    StartTransmits(Final(OPENED));
    QuotaConserved(SENT, 1);
  }

  // ---------------------------------------------------------------- a leaked reservation

  lemma SuppressLeavesReservation(db: Db)
    requires Answering(db)
    ensures var after := Next(Next(db, Tick(Prepare(0, true), 0)), Tick(SuppressGroup(KEY), 0));
      && 1 in after.windows && after.windows[1].state == Open && after.windows[1].reserved == 1
      && PendingOf(after.attempts, 1) == {}
  {
    PrepareReserves(db);
    var prepared := Next(db, Tick(Prepare(0, true), 0));
    hide PrepareReply, SessionError;
    var after := Next(prepared, Tick(SuppressGroup(KEY), 0));
    assert after.attempts.Keys == {ATTEMPT} && after.attempts[ATTEMPT].status == FailedSend;
  }

  /** Suppression leaves an open window with a reservation that no pending attempt holds. */
  lemma ReservationLeaks()
    ensures 1 in Final(LEAKED).windows && Final(LEAKED).windows[1].state == Open
    ensures Final(LEAKED).windows[1].reserved == 1 && PendingOf(Final(LEAKED).attempts, 1) == {}
    ensures Leaked(LEAKED, 1) == 1
  {
    OpenedAnswers();
    FinalSnoc(OPENED, Tick(Prepare(0, true), 0));
    FinalSnoc(RESERVED, Tick(SuppressGroup(KEY), 0));
    hide Final, Next, Answering, Leaked, PendingOf;
    SuppressLeavesReservation(Final(OPENED));
    ReservationsExact(LEAKED, 1);
  }

  // ---------------------------------------------------------------- a fence across lives

  const REBORN := [REGISTRATION, Tick(Rotate("a", "o", 1), 0), Tick(Delete("a"), 0), REGISTRATION]

  lemma RebornAccounts()
    ensures Final([REGISTRATION, Tick(Rotate("a", "o", 1), 0)]).accounts == map["a" := Account("o", 2, Active, "")]
    ensures Final(REBORN).accounts == map["a" := Account("o", 1, Active, "")]
  {
    var one, two := [REGISTRATION], [REGISTRATION, Tick(Rotate("a", "o", 1), 0)];
    var three := two + [Tick(Delete("a"), 0)];
    Registered();
    FinalSnoc(one, Tick(Rotate("a", "o", 1), 0));
    assert one + [Tick(Rotate("a", "o", 1), 0)] == two;
    FinalSnoc(two, Tick(Delete("a"), 0));
    FinalSnoc(three, REGISTRATION);
    assert three + [REGISTRATION] == REBORN;
    hide Final;
    RotateFirst(Final(one));
    DeleteFirst(Final(two));
    RegisterAgain(Final(three));
  }

  lemma RotateFirst(db: Db)
    requires db.accounts == map["a" := Account("o", 1, Active, "")]
    ensures Next(db, Tick(Rotate("a", "o", 1), 0)).accounts == map["a" := Account("o", 2, Active, "")]
  {
    RetireAccounts(db, OpenWindowsOf(db.windows, "a"), 0);
    hide RetireWindows, OpenWindowsOf;
  }

  lemma DeleteFirst(db: Db)
    requires db.accounts.Keys == {"a"}
    ensures Next(db, Tick(Delete("a"), 0)).accounts == map[]
  {
    DeleteAccounts(db, "a", 0);
    hide DeleteAccount;
  }

  lemma RegisterAgain(db: Db)
    requires db.accounts == map[]
    ensures Next(db, REGISTRATION).accounts == map["a" := Account("o", 1, Active, "")]
  {}

  /**
   The fence does not span lives: a page that carries the generation and cursor of the first life commits in
   the second one, although the account had been rotated in between.
   */
  lemma FenceSpansLives()
    ensures var before := [REGISTRATION, Tick(Rotate("a", "o", 1), 0)];
      && "a" in Final(before).accounts && Final(before).accounts["a"].generation == 2
      && CommitPage(Final(before), Page("a", 1, "", "x", [], false, None), 0) == Rollback(GenerationConflict)
      && CommitPage(Final(REBORN), Page("a", 1, "", "x", [], false, None), 0).Commit?
  {
    RebornAccounts();
    Always(REBORN);
    hide Final, Inv;
    ValidPageOutcome(Final(REBORN), Page("a", 1, "", "x", [], false, None), 0);
  }

  // ---------------------------------------------------------------- a replayed message without a window

  const LATE: nat := 31 * 24 * 60 * 60 * 1000
  const SWEPT := POLLED + [Tick(Rotate("a", "o", 1), 0), Tick(Retain, LATE)]
  const REPLAY := OnePage(2, "c", "d", NewEntry("m", 2, "c"))

  lemma RotateCancels(db: Db)
    requires OneOpen(db)
    ensures var after := Next(db, Tick(Rotate("a", "o", 1), 0));
      && after.accounts == map["a" := Account("o", 2, Active, "c")] && after.messages == db.messages
      && after.windows.Keys == {1} && after.windows[1].state == Cancelled && after.windows[1].updatedAt == 0
      && after.attempts == map[] && after.sessions == map[]
  {}

  lemma RetainSweeps(db: Db)
    requires db.windows.Keys == {1} && db.windows[1].state == Cancelled && db.windows[1].updatedAt == 0
    requires db.attempts == map[] && db.sessions == map[]
    ensures var after := Next(db, Tick(Retain, LATE));
      after.windows == map[] && after.accounts == db.accounts && after.messages.Keys == db.messages.Keys
  {
    var retained := Retention(db, LATE);
    assert retained.windows[1] == db.windows[1] && retained.attempts == map[] && retained.sessions == map[];
    assert KeptWindows(retained, LATE) == map[];
    hide CleanMessages, CleanAttempts, CleanSessions, CloseExpired;
  }

  /** Cleanup deletes a retired window and keeps its message; a page that repeats the message then fails. */
  lemma ReplayFails()
    ensures KEY in Final(SWEPT).messages && Final(SWEPT).windows == map[]
    ensures FencedAndValid(Final(SWEPT), REPLAY, LATE)
    ensures CommitPage(Final(SWEPT), REPLAY, LATE) == Rollback(DedupeInvariant)
  {
    PolledOpen();
    var rotated := POLLED + [Tick(Rotate("a", "o", 1), 0)];
    FinalSnoc(POLLED, Tick(Rotate("a", "o", 1), 0));
    FinalSnoc(rotated, Tick(Retain, LATE));
    assert rotated + [Tick(Retain, LATE)] == SWEPT;
    Always(SWEPT);
    assert OneOpen(Final(POLLED)) && Final(POLLED).messages.Keys == {KEY};
    hide Final, Inv, Next, OneOpen;
    RotateCancels(Final(POLLED));
    RetainSweeps(Final(rotated));
    ReplayRefused(Final(SWEPT));
  }

  lemma ReplayRefused(db: Db)
    requires Inv(db) && db.accounts == map["a" := Account("o", 2, Active, "c")] && KEY in db.messages
    requires db.windows == map[]
    ensures FencedAndValid(db, REPLAY, LATE) && CommitPage(db, REPLAY, LATE) == Rollback(DedupeInvariant)
  {
    var e := REPLAY.entries[0];
    assert REPLAY.entries == [e] && REPLAY.entries[..0] == [];
    assert PageError(REPLAY.entries, ConversationOf(db, "a"), "c").None?;
    assert !Repeatable(db, e);
    hide Inv, CommitPage, PageError, Repeatable;
    ValidPageOutcome(db, REPLAY, LATE);
  }
}
