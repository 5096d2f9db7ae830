/** Cursors form one chain per account and life, and every provider message is stored once. */
module Cursors {
  import opened Basics
  import opened Tables
  import opened PageOrder
  import opened Ledger
  import opened Inbox
  import opened PageCommit
  import opened Authorization
  import opened Events
  import opened Invariants
  import opened InboxProofs
  import opened LedgerProofs
  import opened PageProofs
  import opened Steps
  import opened Runs

  // ---------------------------------------------------------------- what an event does to one account

  /** The committed cursor movement of an account, if the event made one. */
  datatype Link = Link(expected: string, next: string)

  ghost function Moved(db: Db, t: Tick, account: string): Option<Link> {
    match t.event
    case SetCursor(a, generation, expected, next) =>
      if a == account && CompareAndSetCursor(db, a, generation, expected, next).Commit?
      then Some(Link(expected, next)) else None
    case Poll(page) =>
      if page.account == account && CommitPage(db, page, t.now).Commit?
      then Some(Link(page.expectedCursor, page.nextCursor)) else None
    case _ => None
  }

  /** The event starts or ends a life of the account. */
  ghost predicate Reborn(db: Db, t: Tick, account: string) {
    match t.event
    case Register(a, owner) => a == account && RegisterAccount(db, a, owner).Commit?
    case Delete(a) => a == account && DeleteAccount(db, a, t.now).Commit?
    case _ => false
  }

  /** The cursor movements of the account's present life, in order. */
  ghost function Links(run: seq<Tick>, account: string): seq<Link> {
    if run == [] then []
    else
      var init, t := run[..|run| - 1], run[|run| - 1];
      var db := Final(init);
      if Reborn(db, t, account) then []
      else if Moved(db, t, account).Some? then Links(init, account) + [Moved(db, t, account).value]
      else Links(init, account)
  }

  /** The cursor after the first `n` links. */
  function CursorAfter(links: seq<Link>, n: nat): string
    requires n <= |links|
  {
    if n == 0 then "" else links[n - 1].next
  }

  /** Every link starts where the previous one ended; the first starts at the empty cursor. */
  ghost predicate Chained(links: seq<Link>, cursor: string) {
    && (forall i :: 0 <= i < |links| ==> links[i].expected == CursorAfter(links, i))
    && cursor == CursorAfter(links, |links|)
  }

  lemma ChainGrows(links: seq<Link>, cursor: string, link: Link)
    requires Chained(links, cursor) && link.expected == cursor
    ensures Chained(links + [link], link.next)
  {
    var more := links + [link];
    forall i | 0 <= i < |more| ensures more[i].expected == CursorAfter(more, i) {
      assert more[i] == if i < |links| then links[i] else link;
      assert CursorAfter(more, i) == CursorAfter(links, i);
    }
  }

  lemma PollAccounts(db: Db, page: Page, now: nat)
    requires Inv(db) && CommitPage(db, page, now).Commit?
    ensures CursorMatches(db, page.account, page.generation, page.expectedCursor)
    ensures CommitPage(db, page, now).db.accounts
      == db.accounts[page.account := db.accounts[page.account].(cursor := page.nextCursor)]
    ensures db.messages.Keys <= CommitPage(db, page, now).db.messages.Keys
  {
    hide Inv, SameIdentity, PageError, InsertAll, InsertWindows, AddedEntries, Finish, Deliverable;
    StoredReady(db, page, now);
    var stored, n := InsertAll(db, Arrivals(page), now), |page.entries|;
    InsertAllGrows(db, Arrivals(page), now);
    InsertWindowsKeeps(db, stored, page, n, now);
    var moved := MoveCursor(InsertWindows(db, stored, page, n, now).db, page.account, page.nextCursor);
    var conv, added := ConversationOf(db, page.account), AddedEntries(db.messages, page.entries, n);
    FinishElsewhere(moved, conv, added, now);
    FinishAbsorbs(moved, conv, added, now);
  }

  lemma DeleteAccounts(db: Db, account: string, now: nat)
    ensures After(db, DeleteAccount(db, account, now)).accounts == db.accounts - {account}
    ensures forall k :: k in db.messages && !(k.channel == WeixinIlink && k.account == account) && Inv(db) ==>
      k in After(db, DeleteAccount(db, account, now)).messages
  {
    hide RetireWindows, OpenWindowsOf;
    RetireAccounts(db, OpenWindowsOf(db.windows, account), now);
    if Inv(db) {
      forall k | k in db.messages && OfAccount(db.messages[k].conv, account)
        ensures k.channel == WeixinIlink && k.account == account
      {
        MessageFacts(db, k);
      }
    }
    hide Inv;
  }

  lemma RetireAccounts(db: Db, ws: set<WindowId>, now: nat)
    ensures RetireWindows(db, ws, Cancelled, AccountDeleted, now).accounts == db.accounts
    ensures RetireWindows(db, ws, Cancelled, AccountDeleted, now).messages == db.messages
    ensures RetireWindows(db, ws, Cancelled, GenerationChanged, now).accounts == db.accounts
    ensures RetireWindows(db, ws, Cancelled, GenerationChanged, now).messages == db.messages
  {}

  lemma RotateAccounts(db: Db, account: string, owner: string, generation: nat, now: nat)
    ensures var after := After(db, RotateAccount(db, account, owner, generation, now));
      && after.accounts.Keys == db.accounts.Keys && after.messages == db.messages
      && forall a :: a in db.accounts ==> after.accounts[a].cursor == db.accounts[a].cursor
  {
    hide RetireWindows, OpenWindowsOf;
    RetireAccounts(db, OpenWindowsOf(db.windows, account), now);
  }

  /** What one event does to the cursor of an account. */
  ghost predicate CursorStep(db: Db, t: Tick, account: string, after: Db) {
    if Reborn(db, t, account) then account in after.accounts ==> after.accounts[account].cursor == ""
    else
      && (account in after.accounts <==> account in db.accounts)
      && (account in db.accounts ==>
            var link := Moved(db, t, account);
            if link.Some? then db.accounts[account].cursor == link.value.expected
                && after.accounts[account].cursor == link.value.next
            else after.accounts[account].cursor == db.accounts[account].cursor)
      && (account !in db.accounts ==> Moved(db, t, account).None?)
  }

  lemma PollMovesCursor(db: Db, t: Tick, account: string)
    requires Inv(db) && t.event.Poll?
    ensures CursorStep(db, t, account, Apply(db, t.event, t.now))
  {
    var page := t.event.page;
    hide Inv, CommitPage;
    if CommitPage(db, page, t.now).Commit? { PollAccounts(db, page, t.now); }
  }

  lemma DeleteMovesCursor(db: Db, t: Tick, account: string)
    requires t.event.Delete?
    ensures CursorStep(db, t, account, Apply(db, t.event, t.now))
  {
    hide Inv, DeleteAccount;
    DeleteAccounts(db, t.event.account, t.now);
    DeleteFails(db, t.event.account, t.now);
  }

  lemma RotateMovesCursor(db: Db, t: Tick, account: string)
    requires t.event.Rotate?
    ensures CursorStep(db, t, account, Apply(db, t.event, t.now))
  {
    hide RotateAccount;
    RotateAccounts(db, t.event.account, t.event.owner, t.event.generation, t.now);
  }

  lemma RegisterMovesCursor(db: Db, t: Tick, account: string)
    requires t.event.Register?
    ensures CursorStep(db, t, account, Apply(db, t.event, t.now))
  {}

  lemma SetShape(db: Db, account: string, generation: nat, expected: string, next: string)
    ensures var txn := CompareAndSetCursor(db, account, generation, expected, next);
      txn.Commit? ==>
        && account in db.accounts && db.accounts[account].cursor == expected
        && txn.db.accounts == db.accounts[account := db.accounts[account].(cursor := next)]
  {}

  lemma SetMovesCursor(db: Db, t: Tick, account: string)
    requires t.event.SetCursor?
    ensures CursorStep(db, t, account, Apply(db, t.event, t.now))
  {
    SetShape(db, t.event.account, t.event.generation, t.event.expected, t.event.next);
    hide CompareAndSetCursor;
  }

  lemma QuietMovesCursor(db: Db, t: Tick, account: string)
    requires Inv(db) && Enabled(db, t.event, t.now) && !MovesAccounts(t.event)
    ensures CursorStep(db, t, account, Apply(db, t.event, t.now))
  {
    hide Inv, StepOk, Apply;
    ApplySteps(db, t.event, t.now);
  }

  lemma EventMovesCursor(db: Db, t: Tick, account: string)
    requires Inv(db) && Enabled(db, t.event, t.now)
    ensures CursorStep(db, t, account, Apply(db, t.event, t.now))
  {
    hide Inv, CursorStep;
    if t.event.Poll? {
      PollMovesCursor(db, t, account);
    } else if t.event.Delete? {
      DeleteMovesCursor(db, t, account);
    } else if t.event.Register? {
      RegisterMovesCursor(db, t, account);
    } else if t.event.Rotate? {
      RotateMovesCursor(db, t, account);
    } else if t.event.SetCursor? {
      SetMovesCursor(db, t, account);
    } else {
      QuietMovesCursor(db, t, account);
    }
  }

  lemma DeleteFails(db: Db, account: string, now: nat)
    ensures DeleteAccount(db, account, now).Rollback? <==> account !in db.accounts
  {}

  lemma TickMovesCursor(db: Db, t: Tick, account: string)
    requires Inv(db)
    ensures Enabled(db, t.event, t.now) ==> CursorStep(db, t, account, Next(db, t))
    ensures !Enabled(db, t.event, t.now) ==> !Reborn(db, t, account) && Moved(db, t, account).None?
  {
    hide Inv, Apply, CursorStep;
    if Enabled(db, t.event, t.now) { EventMovesCursor(db, t, account); }
  }

  /**
   After every run the committed pages and cursor updates of an account's present life form one chain
   that ends at the stored cursor: no update is lost, doubled or based on a stale cursor.
   */
  lemma {:induction false} CursorChain(run: seq<Tick>, account: string)
    ensures account in Final(run).accounts ==> Chained(Links(run, account), Final(run).accounts[account].cursor)
    ensures account !in Final(run).accounts ==> Links(run, account) == []
  {
    if run != [] {
      var init, t := run[..|run| - 1], run[|run| - 1];
      var db := Final(init);
      CursorChain(init, account);
      Always(init);
      TickMovesCursor(db, t, account);
      hide Inv, Moved, Reborn, Enabled, Next;
      if Moved(db, t, account).Some? && account in db.accounts && !Reborn(db, t, account)
          && Enabled(db, t.event, t.now) {
        ChainGrows(Links(init, account), db.accounts[account].cursor, Moved(db, t, account).value);
      }
    }
  }

  /** A cursor is left once: whoever moves it, no other update or page that starts from it commits any more. */
  lemma OneMovePerCursor(db: Db, t: Tick, account: string, page: Page, generation: nat, next: string, now: nat)
    requires Inv(db) && Enabled(db, t.event, t.now) && Moved(db, t, account).Some?
    requires Moved(db, t, account).value.next != Moved(db, t, account).value.expected
    requires page.account == account && page.expectedCursor == Moved(db, t, account).value.expected
    ensures var after := Next(db, t);
      && CommitPage(after, page, now).Rollback?
      && CompareAndSetCursor(after, account, generation, page.expectedCursor, next).Rollback?
  {
    NoRebirth(db, t, account);
    hide Inv, Apply, Moved, Reborn;
    TickMovesCursor(db, t, account);
  }

  lemma NoRebirth(db: Db, t: Tick, account: string)
    requires Moved(db, t, account).Some?
    ensures !Reborn(db, t, account)
  {}

  // ---------------------------------------------------------------- fencing

  ghost predicate Rotated(db: Db, t: Tick, account: string) {
    && t.event.Rotate? && t.event.account == account
    && RotateAccount(db, account, t.event.owner, t.event.generation, t.now).Commit?
  }

  /** The rotations of the account's present life. */
  ghost function Rotations(run: seq<Tick>, account: string): nat {
    if run == [] then 0
    else
      var init, t := run[..|run| - 1], run[|run| - 1];
      var db := Final(init);
      if Reborn(db, t, account) then 0 else Rotations(init, account) + if Rotated(db, t, account) then 1 else 0
  }

  /** What one event does to the generation of an account; every stored account is active. */
  ghost predicate GenerationStep(db: Db, t: Tick, account: string, after: Db) {
    account in after.accounts ==>
      && (Reborn(db, t, account) || account in db.accounts)
      && (after.accounts[account].status == Active
          || (!Reborn(db, t, account) && after.accounts[account].status == db.accounts[account].status))
      && after.accounts[account].generation ==
           if Reborn(db, t, account) then 1
           else db.accounts[account].generation + if Rotated(db, t, account) then 1 else 0
  }

  lemma RotateGeneration(db: Db, t: Tick, account: string)
    requires t.event.Rotate?
    ensures GenerationStep(db, t, account, Apply(db, t.event, t.now))
  {
    RetireAccounts(db, OpenWindowsOf(db.windows, t.event.account), t.now);
    hide RetireWindows, OpenWindowsOf;
  }

  lemma DeleteGeneration(db: Db, t: Tick, account: string)
    requires t.event.Delete?
    ensures GenerationStep(db, t, account, Apply(db, t.event, t.now))
  {
    hide Inv, DeleteAccount;
    DeleteAccounts(db, t.event.account, t.now);
    DeleteFails(db, t.event.account, t.now);
  }

  lemma PollGeneration(db: Db, t: Tick, account: string)
    requires Inv(db) && t.event.Poll?
    ensures GenerationStep(db, t, account, Apply(db, t.event, t.now))
  {
    hide Inv, CommitPage;
    if CommitPage(db, t.event.page, t.now).Commit? { PollAccounts(db, t.event.page, t.now); }
  }

  lemma RegisterGeneration(db: Db, t: Tick, account: string)
    requires t.event.Register?
    ensures GenerationStep(db, t, account, Apply(db, t.event, t.now))
  {
    RegisterShape(db, t.event.account, t.event.owner);
    hide RegisterAccount;
  }

  lemma RegisterShape(db: Db, account: string, owner: string)
    ensures var txn := RegisterAccount(db, account, owner);
      txn.Commit? ==>
        account !in db.accounts && txn.db == db.(accounts := db.accounts[account := Account(owner, 1, Active, "")])
  {}

  lemma SetGeneration(db: Db, t: Tick, account: string)
    requires t.event.SetCursor?
    ensures GenerationStep(db, t, account, Apply(db, t.event, t.now))
  {
    SetShape(db, t.event.account, t.event.generation, t.event.expected, t.event.next);
    hide CompareAndSetCursor;
  }

  lemma QuietGeneration(db: Db, t: Tick, account: string)
    requires Inv(db) && Enabled(db, t.event, t.now) && !MovesAccounts(t.event)
    ensures GenerationStep(db, t, account, Apply(db, t.event, t.now))
  {
    hide Inv, StepOk, Apply;
    ApplySteps(db, t.event, t.now);
  }

  lemma TickGeneration(db: Db, t: Tick, account: string)
    requires Inv(db)
    ensures GenerationStep(db, t, account, Next(db, t))
  {
    hide Inv, Apply, GenerationStep;
    if !Enabled(db, t.event, t.now) {
      SameGeneration(db, t, account);
    } else if t.event.Rotate? {
      RotateGeneration(db, t, account);
    } else if t.event.Delete? {
      DeleteGeneration(db, t, account);
    } else if t.event.Poll? {
      PollGeneration(db, t, account);
    } else if t.event.Register? {
      RegisterGeneration(db, t, account);
    } else if t.event.SetCursor? {
      SetGeneration(db, t, account);
    } else {
      QuietGeneration(db, t, account);
    }
  }

  lemma SameGeneration(db: Db, t: Tick, account: string)
    requires !Enabled(db, t.event, t.now)
    ensures GenerationStep(db, t, account, db)
  {}

  lemma LastOf(run: seq<Tick>)
    requires run != []
    ensures Final(run) == Next(Final(run[..|run| - 1]), run[|run| - 1])
  {}

  /** The generation counts the rotations of the present life: it starts at 1 again in every life. */
  lemma {:induction false} GenerationCounts(run: seq<Tick>, account: string)
    ensures account in Final(run).accounts ==>
      && Final(run).accounts[account].generation == 1 + Rotations(run, account)
      && Final(run).accounts[account].status == Active
  {
    if run != [] {
      var init, t := run[..|run| - 1], run[|run| - 1];
      LastOf(run);
      GenerationCounts(init, account);
      Always(init);
      TickGeneration(Final(init), t, account);
      hide Inv, Next, Final, Reborn, Rotated;
    }
  }

  /**
   The fence is exact: a page or a cursor update passes it if and only if it names the number of rotations
   of the account's present life and the cursor at the end of that life's chain.
   */
  lemma FenceIsExact(run: seq<Tick>, account: string, generation: nat, cursor: string)
    ensures CursorMatches(Final(run), account, generation, cursor) <==>
      && account in Final(run).accounts
      && generation == 1 + Rotations(run, account)
      && cursor == CursorAfter(Links(run, account), |Links(run, account)|)
  {
    GenerationCounts(run, account);
    CursorChain(run, account);
    hide Final;
  }

  /**
   A listener that read its generation and cursor after `run` passes the fence later exactly if the account
   is registered, its present life has had as many rotations as the life that the listener saw, and the
   chain of cursors ends where it did. With a life in between this can happen: see `FenceSpansLives`.
   */
  lemma StaleListenerFenced(run: seq<Tick>, more: seq<Tick>, account: string, generation: nat, cursor: string)
    requires CursorMatches(Final(run), account, generation, cursor)
    ensures CursorMatches(Final(run + more), account, generation, cursor) <==>
      && account in Final(run + more).accounts
      && Rotations(run + more, account) == Rotations(run, account)
      && CursorAfter(Links(run + more, account), |Links(run + more, account)|) == cursor
  {
    hide Final;
    FenceIsExact(run, account, generation, cursor);
    FenceIsExact(run + more, account, generation, cursor);
  }

  /** A page that does not pass the fence commits nothing. */
  lemma FencedOutCommitsNothing(db: Db, page: Page, now: nat)
    requires !CursorMatches(db, page.account, page.generation, page.expectedCursor)
    ensures CommitPage(db, page, now).Rollback? && Next(db, Tick(Poll(page), now)) == db
  {}

  /** Without a deletion in between, a listener from before a rotation is fenced out for good. */
  lemma {:induction false} RotationsOnlyGrow(run: seq<Tick>, more: seq<Tick>, account: string)
    requires account in Final(run).accounts
    requires forall i :: 0 <= i < |more| ==> more[i].event != Delete(account)
    ensures account in Final(run + more).accounts && Rotations(run + more, account) >= Rotations(run, account)
  {
    hide Inv, Next, Final, Rotated, CursorStep;
    if more == [] {
      assert run + more == run;
    } else {
      var init, t := more[..|more| - 1], more[|more| - 1];
      RotationsOnlyGrow(run, init, account);
      assert (run + more)[..|run + more| - 1] == run + init && (run + more)[|run + more| - 1] == t;
      Always(run + init);
      LastOf(run + more);
      StaysRegistered(Final(run + init), t, account);
    }
  }

  lemma StaysRegistered(db: Db, t: Tick, account: string)
    requires Inv(db) && account in db.accounts && t.event != Delete(account)
    ensures account in Next(db, t).accounts && !Reborn(db, t, account)
  {
    assert !Reborn(db, t, account);
    hide Inv, Apply, Moved, Reborn;
    TickMovesCursor(db, t, account);
  }

  lemma StaleListenerCommitsNothing(run: seq<Tick>, more: seq<Tick>, page: Page, now: nat)
    requires page.account in Final(run).accounts
    requires forall i :: 0 <= i < |more| ==> more[i].event != Delete(page.account)
    requires page.generation < Final(run).accounts[page.account].generation
    ensures CommitPage(Final(run + more), page, now).Rollback?
    ensures Next(Final(run + more), Tick(Poll(page), now)) == Final(run + more)
  {
    hide Final, CommitPage, Next;
    GenerationCounts(run, page.account);
    RotationsOnlyGrow(run, more, page.account);
    FenceIsExact(run + more, page.account, page.generation, page.expectedCursor);
    FencedOutCommitsNothing(Final(run + more), page, now);
  }

  // ---------------------------------------------------------------- storage

  /** How often the key was inserted. */
  ghost function Insertions(inbox: seq<MessageKey>, key: MessageKey): nat { multiset(inbox)[key] }

  /** How often an account was deleted. */
  ghost function Deletions(run: seq<Tick>, account: string): nat {
    if run == [] then 0
    else
      var t := run[|run| - 1];
      Deletions(run[..|run| - 1], account)
        + if t.event.Delete? && t.event.account == account && account in Final(run[..|run| - 1]).accounts then 1 else 0
  }

  lemma {:induction false} NewRowsDistinct(db: Db, after: Db, n: nat, key: MessageKey)
    requires StepOk(db, after) && |db.inbox| <= n <= |after.inbox|
    ensures multiset(after.inbox[..n])[key] == multiset(db.inbox)[key]
      + if key !in db.messages && key in after.messages && |db.inbox| < after.messages[key].inboxSeq <= n
           && after.inbox[after.messages[key].inboxSeq - 1] == key then 1 else 0
    decreases n
  {
    hide AttemptsStep, WindowsStep, AuthsStep, SentStep;
    if n == |db.inbox| {
      assert after.inbox[..n] == db.inbox;
    } else {
      NewRowsDistinct(db, after, n - 1, key);
      assert after.inbox[..n] == after.inbox[..n - 1] + [after.inbox[n - 1]];
    }
  }

  /** One event inserts a key at most once, and only while it is not stored. */
  lemma InsertedOnce(db: Db, after: Db, key: MessageKey)
    requires Inv(after) && StepOk(db, after)
    ensures Insertions(after.inbox, key) == Insertions(db.inbox, key)
      + if key !in db.messages && key in after.messages then 1 else 0
  {
    NewRowsDistinct(db, after, |after.inbox|, key);
    assert after.inbox[..|after.inbox|] == after.inbox;
    if key in after.messages { MessageFacts(after, key); }
    hide Inv, AttemptsStep, WindowsStep, AuthsStep, SentStep;
  }

  lemma AccountEventKeepsMessages(db: Db, t: Tick, key: MessageKey)
    requires Inv(db) && key in db.messages && MovesAccounts(t.event)
    requires !(key.channel == WeixinIlink && t.event.Delete? && t.event.account == key.account
      && key.account in db.accounts)
    ensures key in Apply(db, t.event, t.now).messages
  {
    hide Inv, CommitPage, DeleteAccount, RotateAccount;
    if t.event.Rotate? {
      RotateAccounts(db, t.event.account, t.event.owner, t.event.generation, t.now);
    } else if t.event.Delete? {
      DeleteAccounts(db, t.event.account, t.now);
      DeleteFails(db, t.event.account, t.now);
    } else if t.event.Poll? && CommitPage(db, t.event.page, t.now).Commit? {
      PollAccounts(db, t.event.page, t.now);
    }
  }

  lemma TickKeepsMessages(db: Db, t: Tick, key: MessageKey)
    requires Inv(db) && key in db.messages
    requires !(key.channel == WeixinIlink && t.event.Delete? && t.event.account == key.account
      && key.account in db.accounts)
    ensures key in Next(db, t).messages
  {
    hide Inv, Apply, StepOk, Enabled;
    if Enabled(db, t.event, t.now) {
      if MovesAccounts(t.event) {
        AccountEventKeepsMessages(db, t, key);
      } else {
        ApplySteps(db, t.event, t.now);
      }
    }
  }

  /**
   Under replayed and overlapping pages a provider message is stored once in each life of its account:
   every insertion but the present one was ended by a deletion of the account.
   */
  lemma {:induction false} StoredOnce(run: seq<Tick>, key: MessageKey)
    ensures Insertions(Final(run).inbox, key)
      <= (if key.channel == WeixinIlink then Deletions(run, key.account) else 0)
        + if key in Final(run).messages then 1 else 0
  {
    if run != [] {
      var init, t := run[..|run| - 1], run[|run| - 1];
      var db := Final(init);
      StoredOnce(init, key);
      Always(init);
      Always(run);
      NextKeeps(db, t);
      InsertedOnce(db, Final(run), key);
      hide Inv, StepOk, Next;
      if key in db.messages && key !in Final(run).messages {
        if !(key.channel == WeixinIlink && t.event.Delete? && t.event.account == key.account
            && key.account in db.accounts) {
          TickKeepsMessages(db, t, key);
        }
      }
    }
  }
}
