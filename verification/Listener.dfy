/** The poll loop of one iLink account: its cursor, and the messages that it still has to hand over. */
module Listener {
  import opened Basics
  import opened Tables
  import opened PageOrder
  import opened Ledger
  import opened Inbox
  import opened PageCommit
  import opened Invariants
  import opened Database
  import opened IlinkStore
  import opened Cursors
  import opened PageRows

  /** `fenceRejection`. */
  predicate Fences(e: Error) { e in {AccountNotFound, AccountNotActive, GenerationConflict, CursorConflict} }

  datatype Round = Retry | Fenced | Committed

  /**
   The state that one listener keeps. `delivered` and `enqueued` are history variables: the keys that its
   commits returned, and those that the host has accepted.
   */
  class Listener {
    const store: IlinkStore
    const account: string
    const generation: nat
    const startedAt: nat
    var cursor: string
    var pending: seq<MessageKey>
    ghost var delivered: seq<MessageKey>
    ghost var enqueued: seq<MessageKey>

    constructor (store: IlinkStore, account: string, generation: nat, cursor: string, startedAt: nat)
      ensures this.store == store && this.account == account && this.generation == generation && this.cursor == cursor
      ensures Valid() && delivered == []
    {
      this.store, this.account, this.generation, this.cursor, this.startedAt := store, account, generation, cursor,
        startedAt;
      pending, delivered, enqueued := [], [], [];
    }

    /** Every delivered key was enqueued or still waits to be, once and in order. */
    ghost predicate Valid()
      reads this
    {
      delivered == enqueued + pending
    }

    /** The page that the listener commits for a response. */
    function NextPage(next: string, entries: seq<Entry>): Page
      reads this
    {
      Page(account, generation, cursor, next, entries, false, Some(startedAt))
    }

    /** Hand the pending keys to the host; a host that throws leaves them pending. */
    method HandOver(accepts: bool) returns (ok: bool)
      requires Valid()
      modifies this`pending, this`enqueued
      ensures Valid() && ok == (accepts || old(pending) == []) && (ok ==> pending == [])
      ensures !ok ==> pending == old(pending) && enqueued == old(enqueued)
    {
      if pending == [] { return true; }
      if !accepts { return false; }
      enqueued := enqueued + pending;
      pending := [];
      ok := true;
    }

    /**
     One round of `#poll`: keys of an earlier page go first; then the response is committed under the
     listener's own generation and cursor, and its keys are handed over. Messages without a new cursor are refused.
     */
    method Poll(next: string, received: bool, entries: seq<Entry>, now: nat, acceptsEarlier: bool, acceptsNew: bool)
      returns (round: Round)
      requires Valid() && (entries != [] ==> received)
      modifies this`pending, this`enqueued, this`delivered, this`cursor, store.database
      ensures Valid() && old(delivered) <= delivered
      ensures round == Committed ==>
        && CommitPage(old(store.database.rows), old(NextPage(next, entries)), now).Commit?
        && store.database.rows == CommitPage(old(store.database.rows), old(NextPage(next, entries)), now).db
        && cursor == next
        && delivered == old(delivered)
            + CommitPage(old(store.database.rows), old(NextPage(next, entries)), now).value.inserted
      ensures round != Committed ==>
        store.database.rows == old(store.database.rows) && cursor == old(cursor) && delivered == old(delivered)
      ensures old(Inv(store.database.rows)) ==> forall k :: k in delivered[|old(delivered)|..] ==>
        SentSince(entries, startedAt, k)
      ensures round == Fenced ==> CommitPage(old(store.database.rows), old(NextPage(next, entries)), now).Rollback?
      ensures old(Inv(store.database.rows) && CursorMatches(store.database.rows, account, generation, cursor)) ==>
        CursorMatches(store.database.rows, account, generation, cursor)
      ensures !old(CursorMatches(store.database.rows, account, generation, cursor)) ==> round != Committed
    {
      var ok := HandOver(acceptsEarlier);
      if !ok || (received && next == cursor) { return Retry; }
      ghost var db, page := store.database.rows, NextPage(next, entries);
      CommittedPage(db, page, startedAt, now);
      hide CommitPage, Inv, SentSince, CursorMatches;
      var committed := store.CommitPollPage(NextPage(next, entries), now);
      if committed.Err? { return if Fences(committed.error) then Fenced else Retry; }
      cursor := committed.value.cursor;
      pending := committed.value.inserted;
      delivered := delivered + pending;
      var _ := HandOver(acceptsNew);
      round := Committed;
    }
  }

  /** The key is of an entry that was not sent before the given time. */
  ghost predicate SentSince(entries: seq<Entry>, startedAt: nat, k: MessageKey) {
    exists i :: 0 <= i < |entries| && KeyOf(entries[i]) == k && entries[i].sentAt >= startedAt
  }

  lemma ReturnedSince(db: Db, page: Page, startedAt: nat, now: nat)
    requires Inv(db) && CommitPage(db, page, now).Commit? && page.deferredBefore == Some(startedAt)
    ensures forall k :: k in CommitPage(db, page, now).value.inserted ==> SentSince(page.entries, startedAt, k)
  {
    hide Inv, CommitPage;
    forall k | k in CommitPage(db, page, now).value.inserted ensures SentSince(page.entries, startedAt, k) {
      ReturnedAreLive(db, page, now, k);
    }
  }

  /** What a committed page means for the listener that sent it. */
  lemma CommittedPage(db: Db, page: Page, startedAt: nat, now: nat)
    requires page.deferredBefore == Some(startedAt)
    ensures var txn := CommitPage(db, page, now);
      txn.Commit? ==>
        && txn.value.cursor == page.nextCursor
        && CursorMatches(db, page.account, page.generation, page.expectedCursor)
        && (Inv(db) ==>
              && CursorMatches(txn.db, page.account, page.generation, page.nextCursor)
              && forall k :: k in txn.value.inserted ==> SentSince(page.entries, startedAt, k))
  {
    CommittedCursor(db, page, now);
    if Inv(db) && CommitPage(db, page, now).Commit? {
      PollAccounts(db, page, now);
      ReturnedSince(db, page, startedAt, now);
    }
    hide CommitPage, Inv, SentSince;
  }

  lemma CommittedCursor(db: Db, page: Page, now: nat)
    ensures CommitPage(db, page, now).Commit? ==>
      && CommitPage(db, page, now).value.cursor == page.nextCursor
      && CursorMatches(db, page.account, page.generation, page.expectedCursor)
  {
    hide SameIdentity, PageError, Finish, Deliverable;
  }
}
