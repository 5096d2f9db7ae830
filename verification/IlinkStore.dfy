/** The iLink store: its transactions, statement by statement, against what they do to the tables. */
module IlinkStore {
  import opened Basics
  import opened Tables
  import opened Ledger
  import opened Inbox
  import opened PageOrder
  import opened PageCommit
  import opened Database
  import opened PageLoops
  import opened CoreStore
  import opened Invariants
  import opened LedgerProofs

  // ---------------------------------------------------------------- loops over windows

  /** Retiring windows one at a time retires them all. */
  lemma RetireOneMore(db: Db, done: set<WindowId>, w: WindowId, state: WindowState, reason: Reason, now: nat)
    requires w !in done && state != Open
    ensures RetireWindows(RetireWindows(db, done, state, reason, now), {w}, state, reason, now)
      == RetireWindows(db, done + {w}, state, reason, now)
  {
    RetireAttemptsTwice(db, done, w, reason, now);
    RetireSessionsTwice(db, done, w, now);
    hide FailPending, CloseSessions, WindowAttempts, WindowSessions;
  }

  lemma RetireAttemptsTwice(db: Db, done: set<WindowId>, w: WindowId, reason: Reason, now: nat)
    ensures var first := FailPending(db.attempts, WindowAttempts(db.attempts, done), reason, now);
      FailPending(first, WindowAttempts(first, {w}), reason, now)
        == FailPending(db.attempts, WindowAttempts(db.attempts, done + {w}), reason, now)
  {}

  lemma RetireSessionsTwice(db: Db, done: set<WindowId>, w: WindowId, now: nat)
    ensures var first := CloseSessions(db.sessions, WindowSessions(db.sessions, done), now);
      CloseSessions(first, WindowSessions(first, {w}), now)
        == CloseSessions(db.sessions, WindowSessions(db.sessions, done + {w}), now)
  {}

  lemma RetireNone(db: Db, state: WindowState, reason: Reason, now: nat)
    ensures RetireWindows(db, {}, state, reason, now) == db
  {}

  lemma RetireElsewhere(db: Db, ws: set<WindowId>, state: WindowState, reason: Reason, now: nat)
    ensures var after := RetireWindows(db, ws, state, reason, now);
      after == db.(attempts := after.attempts, sessions := after.sessions, windows := after.windows,
        secrets := after.secrets)
  {}

  // ---------------------------------------------------------------- recovery by window

  /** Exactly the iLink attempts belong to windows. */
  ghost predicate Windowed(attempts: map<AttemptKey, Attempt>) {
    forall k :: k in attempts ==> (attempts[k].conv.channel == WeixinIlink <==> attempts[k].window.Some?)
  }

  /** So it is in every reachable state. */
  lemma InvIsWindowed(db: Db)
    requires Inv(db)
    ensures Windowed(db.attempts)
  {
    hide Inv;
    forall k | k in db.attempts ensures db.attempts[k].conv.channel == WeixinIlink <==> db.attempts[k].window.Some? {
      AttemptFacts(db, k);
    }
  }

  /** The windows that own pending attempts. */
  function PendingWindows(attempts: map<AttemptKey, Attempt>): set<WindowId> {
    set k | k in attempts && attempts[k].status == Pending && attempts[k].window.Some? :: attempts[k].window.value
  }

  ghost function PendingIn(attempts: map<AttemptKey, Attempt>, ws: set<WindowId>): set<AttemptKey> {
    set k | k in attempts && attempts[k].status == Pending && attempts[k].window.Some? && attempts[k].window.value in ws
  }

  /** The reservations of a window cover its pending attempts. */
  ghost predicate Covered(db: Db, w: WindowId) {
    w in db.windows && |PendingOf(db.attempts, w)| <= db.windows[w].reserved
  }

  ghost predicate AllCovered(db: Db, ws: set<WindowId>) {
    forall w :: w in ws ==> Covered(db, w)
  }

  lemma NotAllCovered(db: Db, some: set<WindowId>)
    requires !AllCovered(db, some) && some <= PendingWindows(db.attempts)
    ensures !AllCovered(db, PendingWindows(db.attempts))
  {}

  lemma CoveredOneMore(db: Db, done: set<WindowId>, w: WindowId)
    ensures AllCovered(db, done + {w}) <==> AllCovered(db, done) && Covered(db, w)
    ensures AllCovered(db, {})
  {}

  /** The database once the attempts of some windows are recovered. */
  ghost function RecoveredIn(db: Db, ws: set<WindowId>, now: nat): Db {
    db.(
      attempts := FailPending(db.attempts, PendingIn(db.attempts, ws), AbandonedBeforeTransmit, now),
      windows := map w | w in db.windows :: var n := |PendingOf(db.attempts, w)|;
        if w in ws && 0 < n <= db.windows[w].reserved
        then db.windows[w].(reserved := db.windows[w].reserved - n, updatedAt := now)
        else db.windows[w])
  }

  /** The rounds over `ws` have taken `db` to `mid` and failed `count` attempts. */
  ghost predicate Progressed(db: Db, mid: Db, ws: set<WindowId>, count: nat, now: nat) {
    mid == RecoveredIn(db, ws, now) && count == |PendingIn(db.attempts, ws)|
  }

  lemma RecoveredNone(db: Db, now: nat)
    ensures Progressed(db, db, {}, 0, now)
  {
    assert PendingIn(db.attempts, {}) == {};
  }

  lemma RecoveredAll(db: Db, now: nat)
    requires Windowed(db.attempts) && Recoverable(db)
    ensures RecoverPending(db, now) ==
      Commit(RecoveredIn(db, PendingWindows(db.attempts), now), |PendingIlink(db.attempts)|)
    ensures PendingIn(db.attempts, PendingWindows(db.attempts)) == PendingIlink(db.attempts)
  {
    var ws := PendingWindows(db.attempts);
    assert PendingIn(db.attempts, ws) == PendingIlink(db.attempts);
    forall w | w in db.windows && w !in ws ensures |PendingOf(db.attempts, w)| == 0 {
      assert PendingOf(db.attempts, w) == {};
    }
    hide Recoverable, FailPending, PendingIn, PendingIlink, PendingOf, PendingWindows, Windowed;
    assert RecoverPending(db, now).db.windows == RecoveredIn(db, ws, now).windows;
  }

  /** The pending attempts of a window that is not recovered yet are untouched. */
  lemma RecoveredElsewhere(db: Db, done: set<WindowId>, w: WindowId, now: nat)
    requires w !in done
    ensures var mid := RecoveredIn(db, done, now);
      && PendingOf(mid.attempts, w) == PendingOf(db.attempts, w)
      && (w in mid.windows <==> w in db.windows) && (w in db.windows ==> mid.windows[w] == db.windows[w])
  {}

  lemma PendingOneMore(attempts: map<AttemptKey, Attempt>, done: set<WindowId>, w: WindowId)
    requires w !in done
    ensures |PendingIn(attempts, done + {w})| == |PendingIn(attempts, done)| + |PendingOf(attempts, w)|
  {
    assert PendingIn(attempts, done + {w}) == PendingIn(attempts, done) + PendingOf(attempts, w);
    assert PendingIn(attempts, done) !! PendingOf(attempts, w);
    hide PendingIn, PendingOf;
  }

  lemma RecoveredOneMore(db: Db, done: set<WindowId>, w: WindowId, now: nat)
    requires w !in done && w in db.windows
    ensures var mid, n := RecoveredIn(db, done, now), |PendingOf(db.attempts, w)|;
      && w in mid.windows
      && |PendingIn(db.attempts, done + {w})| == |PendingIn(db.attempts, done)| + n
      && (0 < n <= db.windows[w].reserved ==> RecoveredIn(db, done + {w}, now) == mid.(
            attempts := FailPending(mid.attempts, PendingOf(mid.attempts, w), AbandonedBeforeTransmit, now),
            windows := mid.windows[w := db.windows[w].(reserved := db.windows[w].reserved - n, updatedAt := now)]))
  {
    PendingOneMore(db.attempts, done, w);
    RecoveredAttempts(db, done, w, now);
    hide FailPending, PendingIn, PendingOf;
    var mid, n, next := RecoveredIn(db, done, now), |PendingOf(db.attempts, w)|, RecoveredIn(db, done + {w}, now);
    if 0 < n <= db.windows[w].reserved {
      assert next.windows == mid.windows[w := db.windows[w].(reserved := db.windows[w].reserved - n, updatedAt := now)];
    }
  }

  lemma RecoveredAttempts(db: Db, done: set<WindowId>, w: WindowId, now: nat)
    ensures var mid := FailPending(db.attempts, PendingIn(db.attempts, done), AbandonedBeforeTransmit, now);
      FailPending(mid, PendingOf(mid, w), AbandonedBeforeTransmit, now)
        == FailPending(db.attempts, PendingIn(db.attempts, done + {w}), AbandonedBeforeTransmit, now)
  {}

  // ---------------------------------------------------------------- the store

  class IlinkStore {
    const database: Database

    constructor (database: Database)
      ensures this.database == database
    {
      this.database := database;
    }

    /** `#retireWindow`: the attempts and sessions of the window go first. */
    method RetireWindow(id: WindowId, state: WindowState, now: nat, reason: Reason)
      modifies database
      ensures database.rows == RetireWindows(old(database.rows), {id}, state, reason, now)
    {
      var db := database;
      db.rows := db.rows.(attempts :=
        FailPending(db.rows.attempts, WindowAttempts(db.rows.attempts, {id}), reason, now));
      db.rows := db.rows.(sessions := CloseSessions(db.rows.sessions, WindowSessions(db.rows.sessions, {id}), now));
      if id in db.rows.windows && db.rows.windows[id].state == Open {
        db.rows := db.rows.(windows := db.rows.windows[id :=
          db.rows.windows[id].(state := state, reserved := 0, updatedAt := now)]);
      }
      db.rows := db.rows.(secrets := db.rows.secrets - {id});
      hide FailPending, CloseSessions, WindowAttempts, WindowSessions;
    }

    /** `#cancelOpenWindows`. */
    method CancelOpenWindows(account: string, now: nat, reason: Reason)
      modifies database
      ensures var db := old(database.rows);
        database.rows == RetireWindows(db, OpenWindowsOf(db.windows, account), Cancelled, reason, now)
    {
      hide RetireWindows;
      ghost var before := database.rows;
      var remaining := OpenWindowsOf(database.rows.windows, account);
      ghost var all, done := remaining, {};
      RetireNone(before, Cancelled, reason, now);
      while remaining != {}
        invariant remaining !! done && remaining + done == all
        invariant database.rows == RetireWindows(before, done, Cancelled, reason, now)
        decreases remaining
      {
        var id :| id in remaining;
        RetireOneMore(before, done, id, Cancelled, reason, now);
        RetireWindow(id, Cancelled, now, reason);
        remaining, done := remaining - {id}, done + {id};
      }
      assert done == all;
    }

    /** `rotateAccount`. */
    method Rotate(account: string, owner: string, expectedGeneration: nat, now: nat) returns (r: Result<(), Error>)
      modifies database
      ensures Ran(old(database.rows), RotateAccount(old(database.rows), account, owner, expectedGeneration, now),
        database.rows, r)
    {
      RetireElsewhere(database.rows, OpenWindowsOf(database.rows.windows, account), Cancelled, GenerationChanged, now);
      hide RetireWindows, OpenWindowsOf;
      var accounts := database.rows.accounts;
      if account !in accounts { return Err(AccountNotFound); }
      if accounts[account].generation != expectedGeneration { return Err(GenerationConflict); }
      if accounts[account].owner != owner { return Err(PairMismatch); }
      CancelOpenWindows(account, now, GenerationChanged);
      database.rows := database.rows.(accounts := database.rows.accounts[account :=
        database.rows.accounts[account].(generation := accounts[account].generation + 1, status := Active)]);
      r := Ok(());
    }

    /** `deleteAccountCompletely`: the rows that refer to other rows go first. */
    method Delete(account: string, now: nat) returns (r: Result<(), Error>)
      modifies database
      ensures Ran(old(database.rows), DeleteAccount(old(database.rows), account, now), database.rows, r)
      ensures Inv(old(database.rows)) && r.Ok? ==>
        NoTrace(database.rows, account) && OthersUntouched(old(database.rows), database.rows, account)
    {
      ghost var before := database.rows;
      if Inv(before) && account in before.accounts { DeletedWithoutTrace(before, account, now); }
      hide RetireWindows, OpenWindowsOf, WithoutAccount, Inv, NoTrace, OthersUntouched;
      if account !in database.rows.accounts { return Err(AccountNotFound); }
      CancelOpenWindows(account, now, AccountDeleted);
      DeleteRows(account);
      r := Ok(());
    }

    /** The `DELETE` statements of `deleteAccountCompletely`. */
    method DeleteRows(account: string)
      modifies database
      ensures database.rows == WithoutAccount(old(database.rows), account)
    {
      hide OfAccount;
      var gone := database.rows;
      database.rows := database.rows.(failures := map f | f in gone.failures && !(gone.failures[f].matched.Some?
        && gone.failures[f].matched.value in gone.attempts
        && OfAccount(gone.attempts[gone.failures[f].matched.value].conv, account)) :: gone.failures[f]);
      database.rows := database.rows.(sessions :=
        map t | t in gone.sessions && !OfAccount(gone.sessions[t].conv, account) :: gone.sessions[t]);
      database.rows := database.rows.(attempts :=
        map k | k in gone.attempts && !OfAccount(gone.attempts[k].conv, account) :: gone.attempts[k]);
      database.rows := database.rows.(windows :=
        map w | w in gone.windows && gone.windows[w].conv.account != account :: gone.windows[w]);
      database.rows := database.rows.(images := map k | k in gone.images && !(k in gone.messages
        && OfAccount(gone.messages[k].conv, account)) :: gone.images[k]);
      database.rows := database.rows.(messages :=
        map k | k in gone.messages && !OfAccount(gone.messages[k].conv, account) :: gone.messages[k]);
      database.rows := database.rows.(accounts := map a | a in gone.accounts && a != account :: gone.accounts[a]);
    }

    /** `compareAndSetCursor`. */
    method SetCursor(account: string, expectedGeneration: nat, expected: string, next: string)
      returns (r: Result<string, Error>)
      modifies database
      ensures Ran(old(database.rows),
        CompareAndSetCursor(old(database.rows), account, expectedGeneration, expected, next),
                  database.rows, r)
    {
      if !CursorMatches(database.rows, account, expectedGeneration, expected) {
        return Err(CursorFailure(database.rows, account, expectedGeneration));
      }
      database.rows := MoveCursor(database.rows, account, next);
      r := Ok(next);
    }

    // -------------------------------------------------------------- poll pages

    /** `#validatePageEntry` for every entry. */
    method ValidatePage(entries: seq<Entry>, conv: Conversation, expectedCursor: string)
      returns (invalid: Option<Error>)
      ensures invalid == PageError(entries, conv, expectedCursor)
    {
      for i := 0 to |entries|
        invariant PageError(entries[..i], conv, expectedCursor).None?
      {
        assert entries[..i + 1][..i] == entries[..i];
        invalid := EntryError(entries[i], conv, expectedCursor);
        if invalid.Some? {
          PageErrorStays(entries, conv, expectedCursor, i + 1);
          return;
        }
      }
      assert entries[..|entries|] == entries;
      invalid := None;
    }

    /** `#insertReplyWindow`; when it fails the page is rolled back. */
    method InsertReplyWindow(generation: nat, e: Entry, pageSources: set<MessageKey>, now: nat)
      returns (r: Result<WindowId, Error>)
      requires KeyOf(e) in database.rows.messages
      modifies database
      ensures var txn := InsertWindow(old(database.rows), generation, e, pageSources, now);
        if txn.Commit? then r == Ok(txn.value) && database.rows == txn.db else r == Err(txn.error)
    {
      var inboxSeq := database.rows.messages[KeyOf(e)].inboxSeq;
      var current := OpenWindow(database.rows, e.conv);
      if current.Some? { RetireElsewhere(database.rows, {current.value}, Superseded, SupersededByNewer, now); }
      hide RetireWindows, EntryIsNewer;
      var becomesOpen := BecomesOpen(database.rows, e, pageSources);
      if current.Some? && becomesOpen {
        RetireWindow(current.value, Superseded, now, SupersededByNewer);
      }
      if e.sentAt > now + MAX_CLOCK_SKEW { return Err(InvalidInput); }
      var id := database.rows.nextWindow;
      database.rows := database.rows.(nextWindow := id + 1, windows := database.rows.windows[id :=
        NewWindow(generation, e, inboxSeq, if becomesOpen then Open else Superseded, now)]);
      if becomesOpen {
        database.rows := database.rows.(secrets := database.rows.secrets + {id});
      }
      r := Ok(id);
    }

    /** One round of the loop over the page: a duplicate is checked, a new message gets images and a window. */
    method InsertPageEntry(ghost db0: Db, ghost db: Db, page: Page, i: nat, inserted: bool, ids: seq<WindowId>,
                           added: seq<Entry>, pageSources: set<MessageKey>, now: nat)
      returns (r: Result<seq<WindowId>, Error>)
      requires i < |page.entries| && (inserted <==> IsFresh(db0.messages, page.entries, i))
      requires PageLoop(db0, db, page, i, now, database.rows, ids, added, pageSources)
      modifies database
      ensures if r.Ok?
        then PageLoop(db0, db, page, i + 1, now, database.rows, r.value,
                      if inserted then added + [page.entries[i]] else added,
                      if inserted then pageSources + {KeyOf(page.entries[i])} else pageSources)
        else SoFar(db0, db, page, i + 1, now, database.rows, r)
    {
      var e := page.entries[i];
      ImagesElsewhere(database.rows, e);
      AddedMore(db0.messages, page.entries, i);
      hide InsertWindow, AddImages, KnownDuplicate, IsFresh, KeysOf, AddedEntries;
      if !inserted {
        return if KnownDuplicate(database.rows, e) then Ok(ids) else Err(DedupeInvariant);
      }
      if KeyOf(e) !in database.rows.messages { return Err(DedupeInvariant); }
      database.rows := AddImages(database.rows, e);
      var window := InsertReplyWindow(page.generation, e, pageSources, now);
      r := if window.Ok? then Ok(ids + [window.value]) else Err(window.error);
    }

    /** The loop over the page. */
    method InsertPageWindows(ghost db0: Db, page: Page, inserted: seq<bool>, now: nat)
      returns (r: Result<seq<WindowId>, Error>, added: seq<Entry>)
      requires |inserted| == |page.entries|
      requires forall i :: 0 <= i < |page.entries| ==> (inserted[i] <==> IsFresh(db0.messages, page.entries, i))
      modifies database
      ensures SoFar(db0, old(database.rows), page, |page.entries|, now, database.rows, r)
      ensures r.Ok? ==> added == AddedEntries(db0.messages, page.entries, |page.entries|)
    {
      ghost var db := database.rows;
      var ids, pageSources := [], {};
      added := [];
      BeginPage(db0, db, page, now);
      hide PageLoop, SoFar, IsFresh;
      for i := 0 to |page.entries|
        invariant PageLoop(db0, db, page, i, now, database.rows, ids, added, pageSources)
      {
        var next := InsertPageEntry(db0, db, page, i, inserted[i], ids, added, pageSources, now);
        if next.Err? {
          FailureStays(db0, db, page, i + 1, now, database.rows, next);
          return next, [];
        }
        ids := next.value;
        if inserted[i] { added, pageSources := added + [page.entries[i]], pageSources + {KeyOf(page.entries[i])}; }
      }
      PageDone(db0, db, page, now, database.rows, ids, added, pageSources);
      r := Ok(ids);
    }

    /** Absorb the inserted messages other than `open`, one statement each. */
    method AbsorbInserted(added: seq<Entry>, open: Option<MessageKey>, now: nat)
      modifies database
      ensures database.rows == old(database.rows).(messages :=
        Absorb(old(database.rows).messages, Without(KeysOf(added), open), now))
    {
      ghost var db := database.rows;
      AbsorbNone(db.messages, open, now);
      for i := 0 to |added|
        invariant database.rows == db.(messages := Absorb(db.messages, Without(KeysOf(added[..i]), open), now))
      {
        assert added[..i + 1] == added[..i] + [added[i]];
        KeysOfSnoc(added[..i], added[i]);
        AbsorbOneMore(db.messages, KeysOf(added[..i]), KeyOf(added[i]), open, now);
        hide Absorb, KeysOf, Without;
        if open != Some(KeyOf(added[i])) {
          database.rows := database.rows.(messages := Absorb(database.rows.messages, {KeyOf(added[i])}, now));
        }
      }
      assert added[..|added|] == added;
    }

    /** Absorb the other messages of the page and the backlog; `lines` are the summaries of both. */
    method AbsorbOthers(added: seq<Entry>, key: MessageKey, now: nat)
      returns (backlogKeys: set<MessageKey>, lines: seq<string>, others: seq<MessageKey>)
      requires key in database.rows.messages
      modifies database
      ensures var db := old(database.rows);
        var absorbed := Absorb(db.messages, KeysOf(added) - {key}, now);
        && backlogKeys == BacklogKeys(absorbed, key)
        && database.rows == db.(messages := Absorb(absorbed, backlogKeys, now))
        && others == InOrder(db.inbox, db.messages, (KeysOf(added) + backlogKeys) - {key}, |db.inbox|)
        && lines == (InOrderIn(db.inbox, db.messages, backlogKeys, |db.inbox|);
             StoredSummaries(db.messages, InOrder(db.inbox, db.messages, backlogKeys, |db.inbox|))
               + PageSummaries(added))
    {
      ghost var db := database.rows;
      AbsorbInserted(added, Some(key), now);
      BacklogBefore(db, added, key, now);
      hide Absorb, BacklogKeys, InOrder, StoredSummaries, PageSummaries, KeysOf;
      var pageSummaries := PageSummaries(added);
      backlogKeys := BacklogKeys(database.rows.messages, key);
      var backlog := InOrder(database.rows.inbox, database.rows.messages, backlogKeys, |database.rows.inbox|);
      lines := StoredSummaries(database.rows.messages, backlog) + pageSummaries;
      database.rows := database.rows.(messages := Absorb(database.rows.messages, backlogKeys, now));
      others := InOrder(database.rows.inbox, database.rows.messages, (KeysOf(added) + backlogKeys) - {key},
        |database.rows.inbox|);
    }

    /** The rest of the page when `d` is to be delivered: merge the backlog, the summaries and the images. */
    method Merge(added: seq<Entry>, d: Entry, now: nat)
      requires KeyOf(d) in database.rows.messages
      modifies database
      ensures database.rows == Deliver(old(database.rows), added, KeyOf(d), d.payload, now)
    {
      var key := KeyOf(d);
      KeyStays(database.rows, added, key, now);
      hide Absorb, BacklogKeys, InOrder, StoredSummaries, PageSummaries, LatestImages, Join, KeysOf, Take, Reverse,
        ImageNote;
      var backlogKeys, lines, others := AbsorbOthers(added, key, now);
      var all := LatestImages(database.rows.images, [key] + Reverse(others));
      var images := Take(all, MAX_IMAGES);
      var kept := map k | k in database.rows.images && k !in KeysOf(added) + backlogKeys :: database.rows.images[k];
      database.rows := database.rows.(images := if images == [] then kept else kept[key := images]);
      if (|lines| > 1 || images != []) && database.rows.messages[key].status == Received {
        database.rows := database.rows.(messages := database.rows.messages[key := database.rows.messages[key].(
          payload := Some(Payload(d.payload.body, Join(lines + ImageNote(|all|)), |images|)), updatedAt := now)]);
      }
    }

    /** The rest of the page when nothing is delivered. */
    method Drop(added: seq<Entry>, now: nat)
      modifies database
      ensures database.rows == Discard(old(database.rows), added, now)
    {
      AbsorbInserted(added, None, now);
      database.rows := database.rows.(images := map k | k in database.rows.images && k !in KeysOf(added) ::
        database.rows.images[k]);
    }

    /** `commitPollPage`. */
    method CommitPollPage(page: Page, now: nat) returns (r: Result<PageResult, Error>)
      modifies database
      ensures Ran(old(database.rows), CommitPage(old(database.rows), page, now), database.rows, r)
    {
      var saved := database.rows;
      if !CursorMatches(saved, page.account, page.generation, page.expectedCursor) {
        return Err(CursorFailure(saved, page.account, page.generation));
      }
      var conv := ConversationOf(saved, page.account);
      var invalid := ValidatePage(page.entries, conv, page.expectedCursor);
      if invalid.Some? { return Err(invalid.value); }
      var inbox := new CoreStore(database);
      var ok, inserted := inbox.InsertInboundMessages(Arrivals(page), now);
      if !ok {
        database.rows := saved;
        return Err(DedupeInvariant);
      }
      FreshArrivals(saved.messages, page);
      hide PageError, SameIdentity, InsertAll, InsertWindows, AddedEntries, Deliver, Discard, OpenWindow, Find, IsFresh;
      var windows, added := InsertPageWindows(saved, page, inserted, now);
      if windows.Err? {
        database.rows := saved;
        return Err(windows.error);
      }
      if page.account !in database.rows.accounts {
        database.rows := saved;
        return Err(AccountNotFound);
      }
      database.rows := MoveCursor(database.rows, page.account, page.nextCursor);
      var deliverable := Deliverable(database.rows, conv, added);
      if deliverable.Some? && KeyOf(deliverable.value) in database.rows.messages {
        var deferred := database.rows.messages[KeyOf(deliverable.value)].deferred;
        Merge(added, deliverable.value, now);
        r := Ok(PageResult(if deferred then [] else [KeyOf(deliverable.value)], windows.value,
                           if deferred then 1 else 0, page.nextCursor));
      } else {
        Drop(added, now);
        r := Ok(PageResult([], windows.value, if deliverable.Some? then 1 else 0, page.nextCursor));
      }
    }

    // -------------------------------------------------------------- reply attempts

    /** Insert an attempt row. */
    method InsertAttempt(key: AttemptKey, a: Attempt)
      modifies database
      ensures database.rows == old(database.rows).(attempts := old(database.rows).attempts[key := a])
    {
      database.rows := database.rows.(attempts := database.rows.attempts[key := a]);
    }

    /** Update a window row. */
    method UpdateWindow(id: WindowId, w: Window)
      modifies database
      ensures database.rows == old(database.rows).(windows := old(database.rows).windows[id := w])
    {
      database.rows := database.rows.(windows := database.rows.windows[id := w]);
    }

    /** `prepareReplyAttempt`, and `reserveReplyAttempt` without persisted rejections. */
    method Prepare(token: Token, persistRejection: bool, now: nat) returns (r: Result<Prepared, Error>)
      modifies database
      ensures Ran(old(database.rows), PrepareReply(old(database.rows), token, persistRejection, now), database.rows, r)
    {
      hide NextIndex, SessionActive;
      var db := database.rows;
      var failure := SessionError(db, token, now);
      if failure.Some? && !(persistRejection && failure.value == ReplyWindowExpiredError) { return Err(failure.value); }
      var s := db.sessions[token];
      var id, w := s.window.value, db.windows[s.window.value];
      var rejection: Option<Error> := failure;
      if rejection.None? && w.reserved + w.transmitted >= MAX_SENDS {
        if !persistRejection { return Err(ReplyQuotaExhaustedError); }
        rejection := Some(ReplyQuotaExhaustedError);
      }
      var index := NextIndex(db.attempts, s.source, MAX_ATTEMPTS);
      if index >= MAX_ATTEMPTS { return Err(ReplyQuotaExhaustedError); }
      var key := AttemptKey(s.source, index);
      if rejection.None? {
        if w.state != Open || w.reserved + w.transmitted >= MAX_SENDS { return Err(CounterConflict); }
        UpdateWindow(id, w.(next := w.next + 1, reserved := w.reserved + 1, updatedAt := now));
        InsertAttempt(key, NewAttempt(w, id, McpTool, Pending, NoReason, now));
        return Ok(Reserved(key));
      }
      InsertAttempt(key, NewAttempt(w, id, McpTool, FailedSend,
        if rejection.value == ReplyWindowExpiredError then ReplyWindowExpired else ReplyQuotaExhausted, now));
      r := Ok(Rejected(key, rejection.value));
    }

    /** `startReplyAttempt`: both rows are updated, and a missing row undoes the other. */
    method Start(token: Token, key: AttemptKey, now: nat) returns (r: Result<AttemptKey, Error>)
      modifies database
      ensures Ran(old(database.rows), StartReply(old(database.rows), token, key, now), database.rows, r)
    {
      hide SessionActive, SendingIn;
      var saved := database.rows;
      var failure := PendingError(saved, token, key, now);
      if failure.Some? { return Err(failure.value); }
      var id := saved.sessions[token].window.value;
      var w := saved.windows[id];
      if SendingIn(saved.attempts, w.conv) { return Err(SendInProgress); }
      InsertAttempt(key, saved.attempts[key].(status := Sending, updatedAt := now));
      if w.reserved == 0 || w.reserved + w.transmitted > MAX_SENDS {
        database.rows := saved;
        return Err(CounterConflict);
      }
      UpdateWindow(id, w.(reserved := w.reserved - 1, transmitted := w.transmitted + 1, updatedAt := now));
      database.rows := database.rows.(sent := database.rows.sent + multiset{id});
      r := Ok(key);
    }

    /** `reserveStartedSystemAttempt`. */
    method StartSystemAttempt(key: MessageKey, origin: Origin, now: nat) returns (r: Result<AttemptKey, Error>)
      modifies database
      ensures Ran(old(database.rows), StartSystem(old(database.rows), key, origin, now), database.rows, r)
    {
      hide NextIndex, SendingIn;
      var db := database.rows;
      var found := SourceWindow(db, key);
      if found.None? { return Err(ReplyWindowNotFound); }
      var id, w := found.value, db.windows[found.value];
      if w.conv.account !in db.accounts || db.accounts[w.conv.account].status != Active
        || db.accounts[w.conv.account].generation != w.generation || w.state != Open {
        return Err(ReplyWindowInactive);
      }
      if now >= w.expiresAt { return Err(ReplyWindowExpiredError); }
      if w.reserved + w.transmitted >= MAX_SENDS { return Err(ReplyQuotaExhaustedError); }
      if SendingIn(db.attempts, w.conv) { return Err(SendInProgress); }
      var index := NextIndex(db.attempts, key, MAX_ATTEMPTS);
      if index >= MAX_ATTEMPTS { return Err(AttemptNotReservable); }
      UpdateWindow(id, w.(next := w.next + 1, transmitted := w.transmitted + 1, updatedAt := now));
      InsertAttempt(AttemptKey(key, index), NewAttempt(w, id, origin, Sending, NoReason, now));
      database.rows := database.rows.(sent := database.rows.sent + multiset{id});
      r := Ok(AttemptKey(key, index));
    }

    /** `releasePendingAttempt`. */
    method Release(key: AttemptKey, expired: bool, now: nat) returns (r: Result<bool, Error>)
      modifies database
      ensures Ran(old(database.rows), ReleasePending(old(database.rows), key, expired, now), database.rows, r)
    {
      var db := database.rows;
      if key !in db.attempts || db.attempts[key].conv.channel != WeixinIlink || db.attempts[key].status != Pending {
        return Ok(false);
      }
      var a := db.attempts[key];
      if a.window.None? || a.window.value !in db.windows || db.windows[a.window.value].reserved == 0 {
        return Err(CounterConflict);
      }
      var w := db.windows[a.window.value];
      UpdateWindow(a.window.value, w.(reserved := w.reserved - 1, updatedAt := now));
      InsertAttempt(key, a.(status := FailedSend, updatedAt := now,
        reason := if expired then ReplyWindowExpired else CancelledBeforeTransmit));
      r := Ok(true);
    }

    /** One round of `recoverPendingAttempts`: a window and its pending attempts. */
    method RecoverWindow(ghost saved: Db, ghost done: set<WindowId>, before: nat, id: WindowId, now: nat)
      returns (ok: bool, after: nat)
      requires Windowed(saved.attempts) && id in PendingWindows(saved.attempts) && id !in done
      requires Progressed(saved, database.rows, done, before, now)
      modifies database
      ensures ok <==> Covered(saved, id)
      ensures ok ==> Progressed(saved, database.rows, done + {id}, after, now)
    {
      RecoveredElsewhere(saved, done, id, now);
      PendingWindowHas(saved.attempts, id);
      if id in saved.windows { RecoveredOneMore(saved, done, id, now); }
      hide RecoveredIn, PendingIn, PendingOf, FailPending, PendingWindows, Windowed;
      var count := |PendingOf(database.rows.attempts, id)|;
      after := before + count;
      ok := id in database.rows.windows && count <= database.rows.windows[id].reserved;
      if ok {
        var w := database.rows.windows[id];
        database.rows := database.rows.(attempts :=
          FailPending(database.rows.attempts, PendingOf(database.rows.attempts, id), AbandonedBeforeTransmit, now));
        UpdateWindow(id, w.(reserved := w.reserved - count, updatedAt := now));
      }
    }

    /** The rounds of `recoverPendingAttempts`, up to the first window whose counters do not fit. */
    method RecoverWindows(now: nat) returns (ok: bool, recovered: nat)
      requires Windowed(database.rows.attempts)
      modifies database
      ensures ok <==> AllCovered(old(database.rows), PendingWindows(old(database.rows).attempts))
      ensures ok ==> Progressed(old(database.rows), database.rows, PendingWindows(old(database.rows).attempts),
        recovered, now)
    {
      ghost var saved := database.rows;
      var remaining := PendingWindows(database.rows.attempts);
      ghost var all := remaining;
      RecoveredNone(saved, now);
      CoveredOneMore(saved, {}, 0);
      assert all - remaining == {};
      hide *;
      ok, recovered := true, 0;
      while ok && remaining != {}
        invariant remaining <= all
        invariant ok ==> Progressed(saved, database.rows, all - remaining, recovered, now)
        invariant ok <==> AllCovered(saved, all - remaining)
        decreases remaining
      {
        var id :| id in remaining;
        CoveredOneMore(saved, all - remaining, id);
        ok, recovered := RecoverWindow(saved, all - remaining, recovered, id, now);
        assert all - (remaining - {id}) == (all - remaining) + {id};
        remaining := remaining - {id};
      }
      if ok {
        assert all - remaining == all;
      } else {
        NotAllCovered(saved, all - remaining);
      }
    }

    /** `recoverPendingAttempts`: rolled back as a whole when the counters of a window do not fit. */
    method Recover(now: nat) returns (r: Result<nat, Error>)
      requires Windowed(database.rows.attempts)
      modifies database
      ensures Ran(old(database.rows), RecoverPending(old(database.rows), now), database.rows, r)
    {
      hide RecoveredIn, PendingIn, PendingWindows, Windowed, Covered, RecoverPending;
      var saved := database.rows;
      var ok, recovered := RecoverWindows(now);
      if ok {
        EveryWindowCovered(saved, now);
        r := Ok(recovered);
      } else {
        ghost var id :| id in PendingWindows(saved.attempts) && !Covered(saved, id);
        NotRecoverable(saved, id, now);
        database.rows := saved;
        r := Err(CounterConflict);
      }
    }
  }

  lemma PendingWindowHas(attempts: map<AttemptKey, Attempt>, w: WindowId)
    requires w in PendingWindows(attempts)
    ensures |PendingOf(attempts, w)| > 0
  {
    var k :| k in attempts && attempts[k].status == Pending && attempts[k].window == Some(w);
    assert k in PendingOf(attempts, w);
  }

  lemma NotRecoverable(db: Db, w: WindowId, now: nat)
    requires Windowed(db.attempts) && w in PendingWindows(db.attempts) && !Covered(db, w)
    ensures RecoverPending(db, now) == Rollback(CounterConflict)
  {
    var k :| k in db.attempts && db.attempts[k].status == Pending && db.attempts[k].window == Some(w);
    assert k in PendingIlink(db.attempts);
  }

  lemma EveryWindowCovered(db: Db, now: nat)
    requires Windowed(db.attempts) && AllCovered(db, PendingWindows(db.attempts))
    ensures RecoverPending(db, now) == Commit(RecoveredIn(db, PendingWindows(db.attempts), now),
                                              |PendingIn(db.attempts, PendingWindows(db.attempts))|)
  {
    forall k | k in PendingIlink(db.attempts)
      ensures db.attempts[k].window.Some? && db.attempts[k].window.value in PendingWindows(db.attempts) {}
    RecoveredAll(db, now);
  }
}
