/** `commitPollPage`: one transaction that stores a poll page and leaves one message to deliver. */
module PageCommit {
  import opened Basics
  import opened Tables
  import opened PageOrder
  import opened Ledger
  import opened Inbox

  datatype Page = Page(
    account: string,
    generation: nat,
    expectedCursor: string,
    nextCursor: string,
    entries: seq<Entry>,
    deferred: bool,
    deferredBefore: Option<nat>)

  datatype PageResult = PageResult(
    inserted: seq<MessageKey>, windows: seq<WindowId>, deferredCount: nat, cursor: string)

  // ---------------------------------------------------------------- validation and the inbox

  function KeyOf(e: Entry): MessageKey { MessageKey(WeixinIlink, e.conv.account, e.providerId) }

  /** `#validatePageEntry`: the error it throws, if any. */
  function EntryError(e: Entry, conv: Conversation, expectedCursor: string): Option<Error> {
    if e.conv != conv then Some(PairMismatch)
    else if e.cursor != expectedCursor then Some(CursorConflict)
    else if e.providerId == "" then Some(InvalidInput)
    else None
  }

  function PageError(entries: seq<Entry>, conv: Conversation, expectedCursor: string): Option<Error> {
    if entries == [] then None
    else
      var earlier := PageError(entries[..|entries| - 1], conv, expectedCursor);
      if earlier.Some? then earlier else EntryError(entries[|entries| - 1], conv, expectedCursor)
  }

  function ToArrival(page: Page, e: Entry): Arrival {
    Arrival(KeyOf(e), e.conv, true,
            page.deferred || (page.deferredBefore.Some? && e.sentAt < page.deferredBefore.value), e.payload)
  }

  function Arrivals(page: Page): seq<Arrival> {
    seq(|page.entries|, i requires 0 <= i < |page.entries| => ToArrival(page, page.entries[i]))
  }

  /** Entry `i` is inserted: neither the inbox nor an earlier entry of the page has its key. */
  predicate IsFresh(messages: map<MessageKey, Inbound>, entries: seq<Entry>, i: nat)
    requires i < |entries|
  {
    KeyOf(entries[i]) !in messages && forall j :: 0 <= j < i ==> KeyOf(entries[j]) != KeyOf(entries[i])
  }

  /** The inserted entries among the first `n`, in page order. */
  function AddedEntries(messages: map<MessageKey, Inbound>, entries: seq<Entry>, n: nat): seq<Entry>
    requires n <= |entries|
  {
    if n == 0 then []
    else
      var earlier := AddedEntries(messages, entries, n - 1);
      if IsFresh(messages, entries, n - 1) then earlier + [entries[n - 1]] else earlier
  }

  function KeysOf(entries: seq<Entry>): set<MessageKey> { set e | e in entries :: KeyOf(e) }

  // ---------------------------------------------------------------- reply windows

  function NewWindow(generation: nat, e: Entry, inboxSeq: nat, state: WindowState, now: nat): Window {
    Window(e.conv, generation, KeyOf(e), inboxSeq, e.providerSeq, e.sentAt, Min(e.sentAt, now) + WINDOW_LIFETIME,
           0, 0, 0, state, now)
  }

  function AddWindow(db: Db, w: Window): Db {
    db.(windows := db.windows[db.nextWindow := w], nextWindow := db.nextWindow + 1,
        secrets := if w.state == Open then db.secrets + {db.nextWindow} else db.secrets)
  }

  /** The window of an entry opens: there is none open, or the entry is newer than its source. */
  predicate BecomesOpen(db: Db, e: Entry, pageSources: set<MessageKey>) {
    var current := OpenWindow(db, e.conv);
    current.Some? ==>
      var w := db.windows[current.value];
      EntryIsNewer(e, w.providerSeq, w.issuedAt, w.source.providerId, w.source in pageSources)
  }

  /** The open window makes way. */
  function Supersede(db: Db, conv: Conversation, now: nat): Db {
    var current := OpenWindow(db, conv);
    if current.Some? then RetireWindows(db, {current.value}, Superseded, SupersededByNewer, now) else db
  }

  /** `#insertReplyWindow`. */
  function InsertWindow(db: Db, generation: nat, e: Entry, pageSources: set<MessageKey>, now: nat): Txn<WindowId>
    requires KeyOf(e) in db.messages
  {
    var opens := BecomesOpen(db, e, pageSources);
    var ready := if opens then Supersede(db, e.conv, now) else db;
    if e.sentAt > now + MAX_CLOCK_SKEW then Rollback(InvalidInput)
    else Commit(AddWindow(ready, NewWindow(generation, e, db.messages[KeyOf(e)].inboxSeq,
      if opens then Open else Superseded, now)), db.nextWindow)
  }

  /** `#validateDuplicate`. */
  predicate KnownDuplicate(db: Db, e: Entry) {
    KeyOf(e) in db.messages && db.messages[KeyOf(e)].conv == e.conv && SourceWindow(db, KeyOf(e)).Some?
  }

  function AddImages(db: Db, e: Entry): Db {
    if e.images == [] then db else db.(images := db.images[KeyOf(e) := e.images])
  }

  /** The loop over the page: `db0` is the database before the page, `db` has its messages. */
  function InsertWindows(db0: Db, db: Db, page: Page, n: nat, now: nat): Txn<seq<WindowId>>
    requires n <= |page.entries|
  {
    if n == 0 then Commit(db, [])
    else
      var rest := InsertWindows(db0, db, page, n - 1, now);
      var e := page.entries[n - 1];
      if rest.Rollback? then rest
      else if !IsFresh(db0.messages, page.entries, n - 1) then
        if KnownDuplicate(rest.db, e) then rest else Rollback(DedupeInvariant)
      else if KeyOf(e) !in rest.db.messages then Rollback(DedupeInvariant)
      else
        var inserted := InsertWindow(AddImages(rest.db, e), page.generation, e,
          KeysOf(AddedEntries(db0.messages, page.entries, n - 1)), now);
        if inserted.Rollback? then Rollback(inserted.error)
        else Commit(inserted.db, rest.value + [inserted.value])
  }

  // ---------------------------------------------------------------- merging

  /** The chosen keys among the first `n` insertions, in inbox order. */
  function InOrder(inbox: seq<MessageKey>, messages: map<MessageKey, Inbound>, chosen: set<MessageKey>, n: nat)
    : seq<MessageKey>
    requires n <= |inbox|
  {
    if n == 0 then []
    else
      var earlier, k := InOrder(inbox, messages, chosen, n - 1), inbox[n - 1];
      if k in chosen && k in messages && messages[k].inboxSeq == n then earlier + [k] else earlier
  }

  /** Earlier messages of the conversation that still wait. */
  function BacklogKeys(messages: map<MessageKey, Inbound>, open: MessageKey): set<MessageKey>
    requires open in messages
  {
    set k | k in messages && messages[k].conv == messages[open].conv && messages[k].status == Received
      && k != open && messages[k].inboxSeq < messages[open].inboxSeq
  }

  function Join(lines: seq<string>): string {
    if lines == [] then "" else if |lines| == 1 then lines[0]
    else Join(lines[..|lines| - 1]) + "\n" + lines[|lines| - 1]
  }

  function PageSummaries(added: seq<Entry>): seq<string> {
    var sorted := StableSort(added);
    seq(|sorted|, i requires 0 <= i < |sorted| => sorted[i].payload.summary)
  }

  /** The non-empty summaries of messages, in the given order. */
  function StoredSummaries(messages: map<MessageKey, Inbound>, keys: seq<MessageKey>): seq<string>
    requires forall k :: k in keys ==> k in messages
  {
    if keys == [] then []
    else
      var earlier, last := StoredSummaries(messages, keys[..|keys| - 1]), messages[keys[|keys| - 1]].payload;
      if last.Some? && last.value.summary != "" then earlier + [last.value.summary] else earlier
  }

  function Digits(n: nat): string {
    (if n < 10 then "" else Digits(n / 10)) + [('0' as int + n % 10) as char]
  }

  const MAX_IMAGES: nat := 4

  function ImageNote(count: nat): seq<string> {
    if count > MAX_IMAGES then ["[iLink images: attached the latest 4 of " + Digits(count) + "]"] else []
  }

  function Reverse<T>(s: seq<T>): seq<T> {
    if s == [] then [] else [s[|s| - 1]] + Reverse(s[..|s| - 1])
  }

  /** The images of messages, latest first: by message in the given order, then by position. */
  function LatestImages(images: map<MessageKey, seq<string>>, keys: seq<MessageKey>): seq<string> {
    if keys == [] then []
    else (if keys[0] in images then Reverse(images[keys[0]]) else []) + LatestImages(images, keys[1..])
  }

  function Take<T>(s: seq<T>, n: nat): seq<T> { if |s| <= n then s else s[..n] }

  /** Everything but the delivered message is absorbed. */
  function Absorb(messages: map<MessageKey, Inbound>, keys: set<MessageKey>, now: nat): map<MessageKey, Inbound> {
    map k | k in messages :: if k in keys && messages[k].status == Received
      then messages[k].(status := Absorbed, deferred := false, payload := None, updatedAt := now) else messages[k]
  }

  /** The end of the transaction when the open window belongs to the inserted message `open`. */
  function Deliver(db: Db, added: seq<Entry>, open: MessageKey, payload: Payload, now: nat): Db
    requires open in db.messages
  {
    var absorbed := Absorb(db.messages, KeysOf(added) - {open}, now);
    var backlogKeys := BacklogKeys(absorbed, open);
    var backlog := InOrder(db.inbox, db.messages, backlogKeys, |db.inbox|);
    var others := InOrder(db.inbox, db.messages, (KeysOf(added) + backlogKeys) - {open}, |db.inbox|);
    InOrderIn(db.inbox, db.messages, backlogKeys, |db.inbox|);
    var lines := StoredSummaries(db.messages, backlog) + PageSummaries(added);
    var all := LatestImages(db.images, [open] + Reverse(others));
    var images := Take(all, MAX_IMAGES);
    var merged := Payload(payload.body, Join(lines + ImageNote(|all|)), |images|);
    var others' := Absorb(absorbed, backlogKeys, now);
    var kept := map k | k in db.images && k !in KeysOf(added) + backlogKeys :: db.images[k];
    db.(
      messages := if (|lines| > 1 || images != []) && others'[open].status == Received
        then others'[open := others'[open].(payload := Some(merged), updatedAt := now)] else others',
      images := if images == [] then kept else kept[open := images])
  }

  lemma {:induction false} InOrderIn(inbox: seq<MessageKey>, messages: map<MessageKey, Inbound>,
                                     chosen: set<MessageKey>, n: nat)
    requires n <= |inbox|
    ensures forall k :: k in InOrder(inbox, messages, chosen, n) ==> k in chosen && k in messages
  {
    if n > 0 { InOrderIn(inbox, messages, chosen, n - 1); }
  }

  /** The end of the transaction when no inserted message has the open window. */
  function Discard(db: Db, added: seq<Entry>, now: nat): Db {
    db.(
      messages := Absorb(db.messages, KeysOf(added), now),
      images := map k | k in db.images && k !in KeysOf(added) :: db.images[k])
  }

  function Find(added: seq<Entry>, key: MessageKey): (r: Option<Entry>)
    ensures r.Some? ==> r.value in added && KeyOf(r.value) == key
    ensures r.None? ==> forall e :: e in added ==> KeyOf(e) != key
  {
    if added == [] then None else if KeyOf(added[0]) == key then Some(added[0]) else Find(added[1..], key)
  }

  /** The inserted entry whose window is open at the end of the page. */
  function Deliverable(db: Db, conv: Conversation, added: seq<Entry>): Option<Entry> {
    var open := OpenWindow(db, conv);
    if open.None? then None else Find(added, db.windows[open.value].source)
  }

  function Finish(db: Db, conv: Conversation, added: seq<Entry>, now: nat): Db {
    var deliverable := Deliverable(db, conv, added);
    if deliverable.Some? && KeyOf(deliverable.value) in db.messages
    then Deliver(db, added, KeyOf(deliverable.value), deliverable.value.payload, now)
    else Discard(db, added, now)
  }

  function MoveCursor(db: Db, account: string, cursor: string): Db
    requires account in db.accounts
  {
    db.(accounts := db.accounts[account := db.accounts[account].(cursor := cursor)])
  }

  /** The conversation of an account: it has one peer, the owner. */
  function ConversationOf(db: Db, account: string): Conversation
    requires account in db.accounts
  {
    Conversation(WeixinIlink, account, db.accounts[account].owner)
  }

  /** `commitPollPage`. */
  function CommitPage(db: Db, page: Page, now: nat): Txn<PageResult> {
    if !CursorMatches(db, page.account, page.generation, page.expectedCursor) then
      Rollback(CursorFailure(db, page.account, page.generation))
    else
      var conv := ConversationOf(db, page.account);
      var invalid := PageError(page.entries, conv, page.expectedCursor);
      if invalid.Some? then Rollback(invalid.value)
      else if !SameIdentity(db, Arrivals(page)) then Rollback(DedupeInvariant)
      else
        var stored := InsertAll(db, Arrivals(page), now);
        var windowed := InsertWindows(db, stored, page, |page.entries|, now);
        if windowed.Rollback? then Rollback(windowed.error)
        else if page.account !in windowed.db.accounts then Rollback(AccountNotFound)
        else
          var moved := MoveCursor(windowed.db, page.account, page.nextCursor);
          var added := AddedEntries(db.messages, page.entries, |page.entries|);
          var deliverable := Deliverable(moved, conv, added);
          var live := deliverable.Some? && KeyOf(deliverable.value) in moved.messages
            && !moved.messages[KeyOf(deliverable.value)].deferred;
          Commit(Finish(moved, conv, added, now), PageResult(
            if live then [KeyOf(deliverable.value)] else [],
            windowed.value,
            if deliverable.Some? && !live then 1 else 0,
            page.nextCursor))
  }
}
