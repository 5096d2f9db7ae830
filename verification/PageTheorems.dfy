/** What a committed page delivers, and which window it leaves open. */
module PageTheorems {
  import opened Basics
  import opened Tables
  import opened PageOrder
  import opened Ledger
  import opened Inbox
  import opened PageCommit
  import opened Invariants
  import opened InboxProofs
  import opened LedgerProofs
  import opened PageProofs

  // ---------------------------------------------------------------- the specification

  /** The messages of a conversation that wait in the inbox. */
  function Waiting(db: Db, conv: Conversation): set<MessageKey> {
    set k | k in db.messages && db.messages[k].conv == conv && db.messages[k].status == Received
  }

  /** Their non-empty summaries in inbox order. */
  function WaitingLines(db: Db, conv: Conversation): seq<string> {
    InOrderIn(db.inbox, db.messages, Waiting(db, conv), |db.inbox|);
    StoredSummaries(db.messages, InOrder(db.inbox, db.messages, Waiting(db, conv), |db.inbox|))
  }

  /** The stored images once those of the inserted entries are added. */
  function Collected(images: map<MessageKey, seq<string>>, added: seq<Entry>): map<MessageKey, seq<string>> {
    if added == [] then images
    else
      var earlier, e := Collected(images, added[..|added| - 1]), added[|added| - 1];
      if e.images == [] then earlier else earlier[KeyOf(e) := e.images]
  }

  /** All images that a delivered message stands for, latest first. */
  function ImagesFor(db: Db, after: Db, conv: Conversation, added: seq<Entry>, key: MessageKey): seq<string> {
    var others := InOrder(after.inbox, after.messages, (KeysOf(added) + Waiting(db, conv)) - {key}, |after.inbox|);
    LatestImages(Collected(db.images, added), [key] + Reverse(others))
  }

  /**
   One message of the conversation waits and stands for all of them: its summary is that of the messages
   that waited before, in inbox order, followed by that of the inserted ones, in page order.
   */
  ghost predicate Delivered(db: Db, after: Db, conv: Conversation, added: seq<Entry>, key: MessageKey) {
    var images := ImagesFor(db, after, conv, added, key);
    && Waiting(after, conv) == {key}
    && after.messages[key].payload.Some?
    && after.messages[key].payload.value.summary
         == Join(WaitingLines(db, conv) + PageSummaries(added)
              + if |images| > 4 then ["[iLink images: attached the latest 4 of " + Digits(|images|) + "]"] else [])
    && (if key in after.images then after.images[key] else []) == (if |images| > 4 then images[..4] else images)
    && (forall k :: k in (Waiting(db, conv) + KeysOf(added)) - {key} ==>
          k in after.messages && after.messages[k].status == Absorbed && k !in after.images)
    && (forall k :: k in db.messages && k !in Waiting(db, conv) ==>
          k in after.messages && after.messages[k] == db.messages[k])
  }

  /** The keys are those of the set, each once, in the order of their rows. */
  ghost predicate Lists(messages: map<MessageKey, Inbound>, chosen: set<MessageKey>, keys: seq<MessageKey>) {
    && (forall k :: k in keys <==> k in chosen)
    && (forall k :: k in keys ==> k in messages)
    && (forall i, j :: 0 <= i < j < |keys| ==> messages[keys[i]].inboxSeq < messages[keys[j]].inboxSeq)
  }

  /** The chosen messages with a given summary. */
  function Saying(messages: map<MessageKey, Inbound>, chosen: set<MessageKey>, line: string): set<MessageKey> {
    set k | k in chosen && k in messages && messages[k].payload.Some? && messages[k].payload.value.summary == line
  }

  /**
   Nothing of the backlog or the page is lost or doubled by the merge: the backlog lists every waiting
   message once in inbox order, each non-empty summary stands as often as it waits, the page order is a
   permutation of the inserted entries, and the images are collected from every other message once.
   */
  ghost predicate NothingLost(db: Db, after: Db, conv: Conversation, added: seq<Entry>, key: MessageKey) {
    && Lists(db.messages, Waiting(db, conv), InOrder(db.inbox, db.messages, Waiting(db, conv), |db.inbox|))
    && (forall line :: line != "" ==>
          multiset(WaitingLines(db, conv))[line] == |Saying(db.messages, Waiting(db, conv), line)|)
    && multiset(StableSort(added)) == multiset(added)
    && var others := (KeysOf(added) + Waiting(db, conv)) - {key};
       Lists(after.messages, others, InOrder(after.inbox, after.messages, others, |after.inbox|))
  }

  /** Nothing waits that did not wait before; every inserted message is absorbed. */
  ghost predicate NothingDelivered(db: Db, after: Db, added: seq<Entry>) {
    && (forall k :: k in KeysOf(added) ==>
          k in after.messages && after.messages[k].status == Absorbed && k !in after.images)
    && (forall k :: k in db.messages ==> k in after.messages && after.messages[k] == db.messages[k])
  }

  // ---------------------------------------------------------------- the inbox after insertion

  lemma {:induction false} AddedCovers(messages: map<MessageKey, Inbound>, entries: seq<Entry>, n: nat, i: nat)
    requires i < n <= |entries| && KeyOf(entries[i]) !in messages
    ensures KeyOf(entries[i]) in KeysOf(AddedEntries(messages, entries, n))
    decreases n, i
  {
    var added := AddedEntries(messages, entries, n);
    if IsFresh(messages, entries, i) {
      AddedContains(messages, entries, n, i);
    } else {
      var j :| 0 <= j < i && KeyOf(entries[j]) == KeyOf(entries[i]);
      AddedCovers(messages, entries, n, j);
    }
  }

  lemma {:induction false} AddedContains(messages: map<MessageKey, Inbound>, entries: seq<Entry>, n: nat, i: nat)
    requires i < n <= |entries| && IsFresh(messages, entries, i)
    ensures entries[i] in AddedEntries(messages, entries, n)
  {
    if i < n - 1 { AddedContains(messages, entries, n - 1, i); }
  }

  /** The row of an inserted entry. */
  lemma {:induction false} InsertAllRow(db: Db, arrivals: seq<Arrival>, now: nat, i: nat)
    requires i < |arrivals| && arrivals[i].key !in db.messages
    requires forall j :: 0 <= j < i ==> arrivals[j].key != arrivals[i].key
    ensures arrivals[i].key in InsertAll(db, arrivals, now).messages
    ensures InsertAll(db, arrivals, now).messages[arrivals[i].key].payload == Some(arrivals[i].payload)
    ensures InsertAll(db, arrivals, now).messages[arrivals[i].key].deferred == arrivals[i].deferred
  {
    var init := arrivals[..|arrivals| - 1];
    if i < |init| {
      InsertAllRow(db, init, now, i);
    } else {
      InsertAllKeys(db, init, now);
    }
  }

  /** What the transaction has stored before it merges: the inserted entries wait, behind everything else. */
  ghost predicate Stored(db: Db, moved: Db, added: seq<Entry>) {
    && db.inbox <= moved.inbox
    && moved.messages.Keys == db.messages.Keys + KeysOf(added)
    && (forall k :: k in db.messages ==> moved.messages[k] == db.messages[k])
    && (forall e :: e in added ==>
          && KeyOf(e) !in db.messages
          && moved.messages[KeyOf(e)].status == Received
          && moved.messages[KeyOf(e)].inboxSeq > |db.inbox|
          && moved.messages[KeyOf(e)].payload == Some(e.payload))
  }

  /** The row of an inserted entry holds its payload. */
  lemma AddedStored(db: Db, page: Page, now: nat, e: Entry)
    requires e in AddedEntries(db.messages, page.entries, |page.entries|)
    ensures var stored := InsertAll(db, Arrivals(page), now);
      && KeyOf(e) !in db.messages && KeyOf(e) in stored.messages && stored.messages[KeyOf(e)].payload == Some(e.payload)
  {
    var arrivals, n := Arrivals(page), |page.entries|;
    AddedFacts(db.messages, page.entries, n);
    var i :| 0 <= i < n && page.entries[i] == e && IsFresh(db.messages, page.entries, i);
    forall j | 0 <= j < i ensures arrivals[j].key != arrivals[i].key {}
    InsertAllRow(db, arrivals, now, i);
  }

  /** Whatever was not stored before was inserted by an entry. */
  lemma StoredIsAdded(db: Db, page: Page, now: nat, k: MessageKey)
    requires k in InsertAll(db, Arrivals(page), now).messages && k !in db.messages
    ensures k in KeysOf(AddedEntries(db.messages, page.entries, |page.entries|))
  {
    InsertAllKeys(db, Arrivals(page), now);
    var i :| 0 <= i < |Arrivals(page)| && Arrivals(page)[i].key == k;
    AddedCovers(db.messages, page.entries, |page.entries|, i);
  }

  lemma StoredAfterInsert(db: Db, page: Page, now: nat)
    requires Inv(db) && SameIdentity(db, Arrivals(page))
    ensures Stored(db, InsertAll(db, Arrivals(page), now), AddedEntries(db.messages, page.entries, |page.entries|))
  {
    hide Inv, SameIdentity, InsertAll, AddedEntries;
    var stored, added := InsertAll(db, Arrivals(page), now), AddedEntries(db.messages, page.entries, |page.entries|);
    InsertAllGrows(db, Arrivals(page), now);
    forall e | e in added
      ensures KeyOf(e) !in db.messages && KeyOf(e) in stored.messages
      ensures stored.messages[KeyOf(e)].payload == Some(e.payload)
    {
      AddedStored(db, page, now, e);
    }
    forall k | k in stored.messages && k !in db.messages ensures k in KeysOf(added) { StoredIsAdded(db, page, now, k); }
    assert stored.messages.Keys == db.messages.Keys + KeysOf(added);
  }

  // ---------------------------------------------------------------- merging

  lemma {:induction false} InOrderPrefix(
    inbox: seq<MessageKey>, messages: map<MessageKey, Inbound>,
    inbox': seq<MessageKey>, messages': map<MessageKey, Inbound>, chosen: set<MessageKey>, n: nat)
    requires inbox <= inbox' && n <= |inbox'|
    requires forall k :: k in chosen ==>
      k in messages && k in messages' && messages'[k].inboxSeq == messages[k].inboxSeq
    requires forall k :: k in chosen ==> messages[k].inboxSeq <= |inbox|
    ensures InOrder(inbox', messages', chosen, n) ==
      InOrder(inbox, messages, chosen, if n <= |inbox| then n else |inbox|)
  {
    if n > 0 { InOrderPrefix(inbox, messages, inbox', messages', chosen, n - 1); }
  }

  lemma {:induction false} SameSummaries(messages: map<MessageKey, Inbound>, messages': map<MessageKey, Inbound>,
                                         keys: seq<MessageKey>)
    requires forall k :: k in keys ==> k in messages && k in messages' && messages'[k].payload == messages[k].payload
    ensures StoredSummaries(messages, keys) == StoredSummaries(messages', keys)
  {
    if keys != [] { SameSummaries(messages, messages', keys[..|keys| - 1]); }
  }

  lemma StoredNew(db: Db, moved: Db, added: seq<Entry>)
    requires Stored(db, moved, added)
    ensures forall k :: k in KeysOf(added) ==>
      k !in db.messages && moved.messages[k].status == Received && moved.messages[k].inboxSeq > |db.inbox|
  {
    forall k | k in KeysOf(added)
      ensures k !in db.messages && moved.messages[k].status == Received && moved.messages[k].inboxSeq > |db.inbox|
    {
      var e :| e in added && KeyOf(e) == k;
    }
  }

  /** The backlog that the transaction selects is what waited before the page. */
  lemma BacklogIsWaiting(db: Db, moved: Db, conv: Conversation, added: seq<Entry>, key: MessageKey, now: nat)
    requires Inv(db) && Stored(db, moved, added) && key in KeysOf(added)
    requires moved.messages[key].conv == conv
    ensures var absorbed := Absorb(moved.messages, KeysOf(added) - {key}, now);
      key in absorbed && BacklogKeys(absorbed, key) == Waiting(db, conv)
  {
    StoredNew(db, moved, added);
    hide KeysOf;
  }

  lemma BacklogLinesAreWaiting(db: Db, moved: Db, conv: Conversation, added: seq<Entry>)
    requires Inv(db) && Stored(db, moved, added)
    ensures var keys := InOrder(moved.inbox, moved.messages, Waiting(db, conv), |moved.inbox|);
      && (forall k :: k in keys ==> k in moved.messages)
      && StoredSummaries(moved.messages, keys) == WaitingLines(db, conv)
  {
    InOrderPrefix(db.inbox, db.messages, moved.inbox, moved.messages, Waiting(db, conv), |moved.inbox|);
    var keys := InOrder(moved.inbox, moved.messages, Waiting(db, conv), |moved.inbox|);
    InOrderIn(db.inbox, db.messages, Waiting(db, conv), |db.inbox|);
    SameSummaries(db.messages, moved.messages, keys);
  }

  /** A page with inserted entries has as many summaries as inserted entries. */
  lemma PageSummariesComplete(added: seq<Entry>)
    ensures |PageSummaries(added)| == |added|
    ensures multiset(StableSort(added)) == multiset(added)
    ensures |added| == 1 ==> PageSummaries(added) == [added[0].payload.summary]
  {
    StableSortKeeps(added);
    if |added| == 1 {
      assert added[..0] == [];
      assert StableSort(added) == InsertSorted(added[0], []);
    }
  }

  lemma {:induction false} InOrderSameSeq(inbox: seq<MessageKey>, messages: map<MessageKey, Inbound>,
    messages': map<MessageKey, Inbound>,
                       chosen: set<MessageKey>, n: nat)
    requires n <= |inbox| && SameRows(messages, messages')
    ensures InOrder(inbox, messages, chosen, n) == InOrder(inbox, messages', chosen, n)
  {
    if n > 0 { InOrderSameSeq(inbox, messages, messages', chosen, n - 1); }
  }

  /** What `Deliver` writes, whatever it merges. */
  lemma DeliverShape(moved: Db, added: seq<Entry>, key: MessageKey, payload: Payload, now: nat)
    requires key in moved.messages
    ensures var after := Deliver(moved, added, key, payload, now);
      var absorbed := Absorb(moved.messages, KeysOf(added) - {key}, now);
      var others := Absorb(absorbed, BacklogKeys(absorbed, key), now);
      && after.messages.Keys == moved.messages.Keys
      && (forall k :: k in moved.messages && k != key ==> after.messages[k] == others[k])
      && after.messages[key] == others[key].(payload := after.messages[key].payload,
            updatedAt := after.messages[key].updatedAt)
      && (forall k :: k in after.images && k != key ==> k !in KeysOf(added) + BacklogKeys(absorbed, key))
  {
    hide BacklogKeys, InOrder, LatestImages, StoredSummaries, PageSummaries, Join, KeysOf, Take, Reverse, ImageNote;
  }

  lemma OtherRows(db: Db, moved: Db, conv: Conversation, added: seq<Entry>, key: MessageKey, now: nat, k: MessageKey)
    requires Inv(db) && Stored(db, moved, added) && key in KeysOf(added) && k in moved.messages
    ensures var row := Absorb(Absorb(moved.messages, KeysOf(added) - {key}, now), Waiting(db, conv), now)[k];
      && row.conv == moved.messages[k].conv && row.inboxSeq == moved.messages[k].inboxSeq
      && if k != key && k in Waiting(db, conv) + KeysOf(added) then row.status == Absorbed
         else row == moved.messages[k] && (k == key || (k in db.messages && row == db.messages[k]))
  {
    StoredNew(db, moved, added);
    hide Inv, KeysOf;
  }

  /** Every message other than the delivered one ends absorbed or untouched. */
  ghost predicate Settled(db: Db, moved: Db, after: Db, conv: Conversation, added: seq<Entry>, key: MessageKey) {
    && after.messages.Keys == moved.messages.Keys && key in moved.messages
    && (forall k :: k in moved.messages ==> RowSettled(db, moved, after, conv, added, key, k))
  }

  ghost predicate RowSettled(db: Db, moved: Db, after: Db, conv: Conversation, added: seq<Entry>, key: MessageKey,
                             k: MessageKey)
    requires k in moved.messages && k in after.messages
  {
    && after.messages[k].conv == moved.messages[k].conv
    && after.messages[k].inboxSeq == moved.messages[k].inboxSeq
    && (if k == key then
          after.messages[k].status == moved.messages[k].status
            && after.messages[k].deferred == moved.messages[k].deferred
        else if k in Waiting(db, conv) + KeysOf(added) then
          after.messages[k].status == Absorbed && k !in after.images
        else k in db.messages && after.messages[k] == db.messages[k])
  }

  lemma DeliverSettlesRow(db: Db, moved: Db, conv: Conversation, added: seq<Entry>, key: MessageKey, payload: Payload,
    now: nat,
                          k: MessageKey)
    requires Inv(db) && Stored(db, moved, added) && key in KeysOf(added) && moved.messages[key].conv == conv
    requires k in moved.messages && key in moved.messages
    ensures var after := Deliver(moved, added, key, payload, now);
      && after.messages.Keys == moved.messages.Keys
      && RowSettled(db, moved, after, conv, added, key, k)
  {
    hide Inv, Deliver, BacklogKeys, KeysOf, Absorb, Stored, Waiting;
    BacklogIsWaiting(db, moved, conv, added, key, now);
    DeliverShape(moved, added, key, payload, now);
    OtherRows(db, moved, conv, added, key, now, k);
  }

  lemma DeliverSettles(db: Db, moved: Db, conv: Conversation, added: seq<Entry>, key: MessageKey, payload: Payload,
                       now: nat)
    requires Inv(db) && Stored(db, moved, added) && key in KeysOf(added) && moved.messages[key].conv == conv
    ensures Settled(db, moved, Deliver(moved, added, key, payload, now), conv, added, key)
  {
    StoredNew(db, moved, added);
    assert key in moved.messages;
    hide Inv, Deliver, KeysOf, Stored, Waiting, RowSettled;
    var after := Deliver(moved, added, key, payload, now);
    DeliverSettlesRow(db, moved, conv, added, key, payload, now, key);
    forall k | k in moved.messages ensures RowSettled(db, moved, after, conv, added, key, k) {
      DeliverSettlesRow(db, moved, conv, added, key, payload, now, k);
    }
  }

  lemma SettledWaits(db: Db, moved: Db, after: Db, conv: Conversation, added: seq<Entry>, key: MessageKey)
    requires Settled(db, moved, after, conv, added, key)
    requires moved.messages[key].conv == conv && moved.messages[key].status == Received
    ensures Waiting(after, conv) == {key}
  {
    hide KeysOf;
    forall k | k in Waiting(after, conv) ensures k == key {
      if k != key && k !in Waiting(db, conv) + KeysOf(added) { assert false; }
    }
  }

  lemma SettledRest(db: Db, moved: Db, after: Db, conv: Conversation, added: seq<Entry>, key: MessageKey)
    requires Stored(db, moved, added) && key in KeysOf(added) && Settled(db, moved, after, conv, added, key)
    ensures forall k :: k in (Waiting(db, conv) + KeysOf(added)) - {key} ==>
      k in after.messages && after.messages[k].status == Absorbed && k !in after.images
    ensures forall k :: k in db.messages && k !in Waiting(db, conv) ==>
      k in after.messages && after.messages[k] == db.messages[k]
  {
    StoredNew(db, moved, added);
    hide KeysOf;
  }

  lemma DeliverRows(db: Db, moved: Db, conv: Conversation, added: seq<Entry>, key: MessageKey, payload: Payload,
                    now: nat)
    requires Inv(db) && Stored(db, moved, added) && key in KeysOf(added)
    requires forall k :: k in KeysOf(added) ==> moved.messages[k].conv == conv
    ensures var after := Deliver(moved, added, key, payload, now);
      && SameRows(moved.messages, after.messages)
      && after.messages[key].deferred == moved.messages[key].deferred
      && Waiting(after, conv) == {key}
      && (forall k :: k in (Waiting(db, conv) + KeysOf(added)) - {key} ==>
            k in after.messages && after.messages[k].status == Absorbed && k !in after.images)
      && (forall k :: k in db.messages && k !in Waiting(db, conv) ==>
            k in after.messages && after.messages[k] == db.messages[k])
  {
    hide Inv, Deliver;
    var after := Deliver(moved, added, key, payload, now);
    DeliverSettles(db, moved, conv, added, key, payload, now);
    StoredNew(db, moved, added);
    hide Stored, KeysOf;
    SettledWaits(db, moved, after, conv, added, key);
    SettledRest(db, moved, after, conv, added, key);
    hide Waiting;
  }

  /** The payload and the images that `Deliver` stores, in terms of its lines and images. */
  lemma DeliverPayload(moved: Db, added: seq<Entry>, key: MessageKey, payload: Payload, now: nat,
                       lines: seq<string>, images: seq<string>)
    requires key in KeysOf(added) && key in moved.messages
    requires moved.messages[key].status == Received && moved.messages[key].payload == Some(payload)
    requires var absorbed := Absorb(moved.messages, KeysOf(added) - {key}, now);
      var backlogKeys := BacklogKeys(absorbed, key);
      var backlog := InOrder(moved.inbox, moved.messages, backlogKeys, |moved.inbox|);
      var others := InOrder(moved.inbox, moved.messages, (KeysOf(added) + backlogKeys) - {key}, |moved.inbox|);
      && (forall k :: k in backlog ==> k in moved.messages)
      && lines == StoredSummaries(moved.messages, backlog) + PageSummaries(added)
      && images == LatestImages(moved.images, [key] + Reverse(others))
    requires |lines| == 1 ==> lines == [payload.summary]
    requires lines != []
    ensures var after := Deliver(moved, added, key, payload, now);
      && after.messages[key].payload.Some?
      && after.messages[key].payload.value.summary == Join(lines + ImageNote(|images|))
      && (if key in after.images then after.images[key] else []) == Take(images, MAX_IMAGES)
  {
    DeliverShape(moved, added, key, payload, now);
    hide BacklogKeys, InOrder, LatestImages, StoredSummaries, PageSummaries, KeysOf, Reverse, Absorb, Join, ImageNote,
      Take;
    KeyUntouched(moved, added, key, now);
    if |lines| == 1 && images == [] { JoinOne(payload.summary); }
    TakeSome(images);
  }

  lemma KeyUntouched(moved: Db, added: seq<Entry>, key: MessageKey, now: nat)
    requires key in moved.messages
    ensures var absorbed := Absorb(moved.messages, KeysOf(added) - {key}, now);
      Absorb(absorbed, BacklogKeys(absorbed, key), now)[key] == moved.messages[key]
  {}

  lemma JoinOne(line: string)
    ensures Join([line] + ImageNote(0)) == line
  {
    assert [line] + ImageNote(0) == [line];
  }

  lemma TakeSome(images: seq<string>)
    ensures Take(images, MAX_IMAGES) == [] <==> images == []
  {}

  /** One line is the summary of the only inserted message. */
  lemma OneLine(db: Db, conv: Conversation, added: seq<Entry>, d: Entry)
    requires d in added
    ensures var lines := WaitingLines(db, conv) + PageSummaries(added);
      lines != [] && (|lines| == 1 ==> lines == [d.payload.summary])
  {
    PageSummariesComplete(added);
    hide WaitingLines, PageSummaries;
    var lines := WaitingLines(db, conv) + PageSummaries(added);
    if |lines| == 1 { assert |added| == 1 && added[0] == d && WaitingLines(db, conv) == []; }
  }

  lemma DeliverContents(db: Db, moved: Db, conv: Conversation, added: seq<Entry>, d: Entry, now: nat)
    requires Inv(db) && Stored(db, moved, added) && d in added
    requires forall k :: k in KeysOf(added) ==> moved.messages[k].conv == conv
    requires moved.images == Collected(db.images, added)
    ensures var after := Deliver(moved, added, KeyOf(d), d.payload, now);
      var images := ImagesFor(db, after, conv, added, KeyOf(d));
      && after.messages[KeyOf(d)].payload.Some?
      && after.messages[KeyOf(d)].payload.value.summary
           == Join(WaitingLines(db, conv) + PageSummaries(added) + ImageNote(|images|))
      && (if KeyOf(d) in after.images then after.images[KeyOf(d)] else []) == Take(images, MAX_IMAGES)
  {
    var key := KeyOf(d);
    assert key in KeysOf(added);
    assert moved.messages[key].status == Received && moved.messages[key].payload == Some(d.payload);
    hide Inv, Deliver, StableSort, PageSummaries, StoredSummaries, WaitingLines, LatestImages, Collected, InOrder,
      Reverse, Stored,
      Absorb, BacklogKeys, KeysOf, Waiting, Join, ImageNote, Take;
    StoredNew(db, moved, added);
    BacklogIsWaiting(db, moved, conv, added, key, now);
    BacklogLinesAreWaiting(db, moved, conv, added);
    DeliverRows(db, moved, conv, added, key, d.payload, now);
    OneLine(db, conv, added, d);
    var after := Deliver(moved, added, key, d.payload, now);
    InOrderSameSeq(moved.inbox, moved.messages, after.messages, (KeysOf(added) + Waiting(db, conv)) - {key},
      |moved.inbox|);
    DeliverInbox(moved, added, key, d.payload, now);
    DeliverPayload(moved, added, key, d.payload, now, WaitingLines(db, conv) + PageSummaries(added),
                   ImagesFor(db, after, conv, added, key));
  }

  lemma DeliverInbox(moved: Db, added: seq<Entry>, key: MessageKey, payload: Payload, now: nat)
    requires key in moved.messages
    ensures Deliver(moved, added, key, payload, now).inbox == moved.inbox
  {}

  // ---------------------------------------------------------------- the theorem

  lemma {:induction false} CollectedSnoc(images: map<MessageKey, seq<string>>, added: seq<Entry>, e: Entry)
    ensures Collected(images, added + [e]) ==
      if e.images == [] then Collected(images, added) else Collected(images, added)[KeyOf(e) := e.images]
  {
    assert (added + [e])[..|added|] == added;
  }

  lemma InsertWindowImages(db: Db, generation: nat, e: Entry, pageSources: set<MessageKey>, now: nat)
    requires KeyOf(e) in db.messages && InsertWindow(db, generation, e, pageSources, now).Commit?
    ensures InsertWindow(db, generation, e, pageSources, now).db.images == db.images
  {}

  lemma {:induction false} WindowsCollect(db0: Db, db: Db, page: Page, n: nat, now: nat)
    requires n <= |page.entries| && InsertWindows(db0, db, page, n, now).Commit?
    ensures InsertWindows(db0, db, page, n, now).db.images
      == Collected(db.images, AddedEntries(db0.messages, page.entries, n))
  {
    hide InsertWindow, Collected, KnownDuplicate, IsFresh;
    if n > 0 {
      WindowsCollect(db0, db, page, n - 1, now);
      var rest, e := InsertWindows(db0, db, page, n - 1, now), page.entries[n - 1];
      var added := AddedEntries(db0.messages, page.entries, n - 1);
      if IsFresh(db0.messages, page.entries, n - 1) {
        CollectedSnoc(db.images, added, e);
        InsertWindowImages(AddImages(rest.db, e), page.generation, e, KeysOf(added), now);
      }
    } else {
      CollectedNone(db.images);
    }
  }

  lemma CollectedNone(images: map<MessageKey, seq<string>>)
    ensures Collected(images, []) == images
  {}

  lemma CommitMerges(db: Db, page: Page, now: nat)
    requires Inv(db) && CommitPage(db, page, now).Commit?
    ensures page.account in db.accounts
    ensures var after, result := CommitPage(db, page, now).db, CommitPage(db, page, now).value;
      var conv := ConversationOf(db, page.account);
      var added := AddedEntries(db.messages, page.entries, |page.entries|);
      var open := OpenWindow(after, conv);
      if open.Some? && after.windows[open.value].source in KeysOf(added) then
        var key := after.windows[open.value].source;
        && Delivered(db, after, conv, added, key)
        && result.inserted == (if after.messages[key].deferred then [] else [key])
        && result.deferredCount == (if after.messages[key].deferred then 1 else 0)
      else
        NothingDelivered(db, after, added) && result.inserted == [] && result.deferredCount == 0
  {
    hide Inv, SameIdentity, PageError, InsertAll, InsertWindows, AddedEntries, Deliver, Discard, Delivered,
      NothingDelivered, Stored;
    var txn := CommitPage(db, page, now);
    var conv := ConversationOf(db, page.account);
    StoredReady(db, page, now);
    StoredAfterInsert(db, page, now);
    var stored := InsertAll(db, Arrivals(page), now);
    InsertAllGrows(db, Arrivals(page), now);
    InsertWindowsKeeps(db, stored, page, |page.entries|, now);
    WindowsCollect(db, stored, page, |page.entries|, now);
    var windowed := InsertWindows(db, stored, page, |page.entries|, now).db;
    var moved := MoveCursor(windowed, page.account, page.nextCursor);
    var added := AddedEntries(db.messages, page.entries, |page.entries|);
    StoredElsewhere(db, stored, moved, added);
    AddedConversation(db, page, stored);
    FinishDelivers(db, moved, conv, added, now);
  }

  // ---------------------------------------------------------------- nothing is lost

  /** Up to row `n` the list holds every chosen message, in the order of the rows. */
  lemma {:induction false} InOrderSoFar(inbox: seq<MessageKey>, messages: map<MessageKey, Inbound>,
                                        chosen: set<MessageKey>, n: nat)
    requires n <= |inbox| && RowsOk(inbox, messages) && chosen <= messages.Keys
    ensures var keys := InOrder(inbox, messages, chosen, n);
      && (forall k :: k in keys <==> k in chosen && messages[k].inboxSeq <= n)
      && (forall i, j :: 0 <= i < j < |keys| ==> messages[keys[i]].inboxSeq < messages[keys[j]].inboxSeq)
  {
    if n > 0 {
      InOrderSoFar(inbox, messages, chosen, n - 1);
      var earlier, k := InOrder(inbox, messages, chosen, n - 1), inbox[n - 1];
      forall l | l in chosen && messages[l].inboxSeq == n ensures l == k {}
      forall i | 0 <= i < |earlier| ensures messages[earlier[i]].inboxSeq < n { assert earlier[i] in earlier; }
    }
  }

  lemma InOrderLists(db: Db, chosen: set<MessageKey>)
    requires Inv(db) && chosen <= db.messages.Keys
    ensures Lists(db.messages, chosen, InOrder(db.inbox, db.messages, chosen, |db.inbox|))
  {
    assert RowsOk(db.inbox, db.messages);
    hide Inv;
    InOrderSoFar(db.inbox, db.messages, chosen, |db.inbox|);
  }

  /** A non-empty line stands once for every listed message that says it. */
  lemma SayingSnoc(messages: map<MessageKey, Inbound>, chosen: set<MessageKey>, k: MessageKey, line: string)
    requires k in chosen && k in messages
    ensures |Saying(messages, chosen, line)| == |Saying(messages, chosen - {k}, line)|
      + (if messages[k].payload.Some? && messages[k].payload.value.summary == line then 1 else 0)
  {
    if messages[k].payload.Some? && messages[k].payload.value.summary == line {
      assert Saying(messages, chosen, line) == Saying(messages, chosen - {k}, line) + {k};
    } else {
      assert Saying(messages, chosen, line) == Saying(messages, chosen - {k}, line);
    }
  }

  lemma SummariesSnoc(messages: map<MessageKey, Inbound>, keys: seq<MessageKey>, line: string)
    requires keys != [] && line != "" && forall k :: k in keys ==> k in messages
    ensures var init, k := keys[..|keys| - 1], keys[|keys| - 1];
      multiset(StoredSummaries(messages, keys))[line] == multiset(StoredSummaries(messages, init))[line]
        + (if messages[k].payload.Some? && messages[k].payload.value.summary == line then 1 else 0)
  {}

  lemma {:induction false} LinesCounted(messages: map<MessageKey, Inbound>, chosen: set<MessageKey>,
    keys: seq<MessageKey>,
                                        line: string)
    requires Lists(messages, chosen, keys) && line != ""
    ensures multiset(StoredSummaries(messages, keys))[line] == |Saying(messages, chosen, line)|
  {
    if keys == [] {
      assert Saying(messages, chosen, line) == {};
    } else {
      var init, k := keys[..|keys| - 1], keys[|keys| - 1];
      ListsInit(messages, chosen, keys);
      assert k in keys;
      SummariesSnoc(messages, keys, line);
      hide Lists, StoredSummaries, Saying;
      LinesCounted(messages, chosen - {k}, init, line);
      SayingSnoc(messages, chosen, k, line);
    }
  }

  lemma WaitingLinesCounted(db: Db, conv: Conversation)
    requires Inv(db)
    ensures Lists(db.messages, Waiting(db, conv), InOrder(db.inbox, db.messages, Waiting(db, conv), |db.inbox|))
    ensures forall line :: line != "" ==>
      multiset(WaitingLines(db, conv))[line] == |Saying(db.messages, Waiting(db, conv), line)|
  {
    hide Inv, Lists, Saying, StoredSummaries, InOrder;
    InOrderLists(db, Waiting(db, conv));
    InOrderIn(db.inbox, db.messages, Waiting(db, conv), |db.inbox|);
    forall line | line != ""
      ensures multiset(WaitingLines(db, conv))[line] == |Saying(db.messages, Waiting(db, conv), line)|
    {
      LinesCounted(db.messages, Waiting(db, conv), InOrder(db.inbox, db.messages, Waiting(db, conv), |db.inbox|), line);
    }
  }

  lemma ListsInit(messages: map<MessageKey, Inbound>, chosen: set<MessageKey>, keys: seq<MessageKey>)
    requires keys != [] && Lists(messages, chosen, keys)
    ensures Lists(messages, chosen - {keys[|keys| - 1]}, keys[..|keys| - 1])
  {
    var init, k := keys[..|keys| - 1], keys[|keys| - 1];
    assert keys == init + [k];
    forall l | l in init ensures l != k {
      var i :| 0 <= i < |init| && init[i] == l;
      assert messages[keys[i]].inboxSeq < messages[keys[|keys| - 1]].inboxSeq;
    }
  }

  lemma MergeLosesNothing(db: Db, after: Db, conv: Conversation, added: seq<Entry>, key: MessageKey)
    requires Inv(db) && Inv(after) && Delivered(db, after, conv, added, key)
    ensures NothingLost(db, after, conv, added, key)
  {
    OthersStored(db, after, conv, added, key);
    hide Inv, Delivered, Lists, KeysOf, Saying, WaitingLines, Waiting, InOrder;
    WaitingLinesCounted(db, conv);
    InOrderLists(after, (KeysOf(added) + Waiting(db, conv)) - {key});
    StableSortKeeps(added);
  }

  lemma OthersStored(db: Db, after: Db, conv: Conversation, added: seq<Entry>, key: MessageKey)
    requires Delivered(db, after, conv, added, key)
    ensures (KeysOf(added) + Waiting(db, conv)) - {key} <= after.messages.Keys
  {
    hide ImagesFor, WaitingLines, PageSummaries, Join, ImageNote, Take, KeysOf;
  }

  /**
   If the open window's source was inserted by the page, it alone waits and stands for the backlog and
   the page, of which nothing is lost; otherwise everything the page inserted is absorbed. The result names
   the delivered message unless it is deferred.
   */
  lemma CommitDelivers(db: Db, page: Page, now: nat)
    requires Inv(db) && CommitPage(db, page, now).Commit?
    ensures page.account in db.accounts
    ensures var after, result := CommitPage(db, page, now).db, CommitPage(db, page, now).value;
      var conv := ConversationOf(db, page.account);
      var added := AddedEntries(db.messages, page.entries, |page.entries|);
      var open := OpenWindow(after, conv);
      if open.Some? && after.windows[open.value].source in KeysOf(added) then
        var key := after.windows[open.value].source;
        && Delivered(db, after, conv, added, key)
        && NothingLost(db, after, conv, added, key)
        && result.inserted == (if after.messages[key].deferred then [] else [key])
        && result.deferredCount == (if after.messages[key].deferred then 1 else 0)
      else
        NothingDelivered(db, after, added) && result.inserted == [] && result.deferredCount == 0
  {
    CommitMerges(db, page, now);
    CommitPageKeeps(db, page, now);
    var after, conv := CommitPage(db, page, now).db, ConversationOf(db, page.account);
    hide Inv, CommitPage, Delivered, NothingDelivered, NothingLost, KeysOf, AddedEntries;
    var added, open := AddedEntries(db.messages, page.entries, |page.entries|), OpenWindow(after, conv);
    if open.Some? && after.windows[open.value].source in KeysOf(added) {
      MergeLosesNothing(db, after, conv, added, after.windows[open.value].source);
    }
  }

  lemma StoredElsewhere(db: Db, stored: Db, moved: Db, added: seq<Entry>)
    requires Stored(db, stored, added) && moved.inbox == stored.inbox && moved.messages == stored.messages
    ensures Stored(db, moved, added)
  {}

  lemma AddedConversation(db: Db, page: Page, stored: Db)
    requires PageReady(db, stored, page)
    ensures forall k :: k in KeysOf(AddedEntries(db.messages, page.entries, |page.entries|)) ==>
      k in stored.messages && stored.messages[k].conv == ConversationOf(stored, page.account)
  {
    hide Inv;
    var added := AddedEntries(db.messages, page.entries, |page.entries|);
    AddedFacts(db.messages, page.entries, |page.entries|);
    forall k | k in KeysOf(added)
      ensures k in stored.messages && stored.messages[k].conv == ConversationOf(stored, page.account)
    {
      var e :| e in added && KeyOf(e) == k;
    }
  }

  lemma FinishDelivers(db: Db, moved: Db, conv: Conversation, added: seq<Entry>, now: nat)
    requires Inv(db) && Stored(db, moved, added) && moved.images == Collected(db.images, added)
    requires forall k :: k in KeysOf(added) ==> k in moved.messages && moved.messages[k].conv == conv
    ensures var after := Finish(moved, conv, added, now);
      var d, open := Deliverable(moved, conv, added), OpenWindow(after, conv);
      && (d.Some? <==> open.Some? && after.windows[open.value].source in KeysOf(added))
      && (if d.Some? then
            && KeyOf(d.value) == after.windows[open.value].source
            && KeyOf(d.value) in moved.messages
            && Delivered(db, after, conv, added, KeyOf(d.value))
            && after.messages[KeyOf(d.value)].deferred == moved.messages[KeyOf(d.value)].deferred
          else NothingDelivered(db, after, added))
  {
    FinishWindows(moved, conv, added, now);
    DeliverableFacts(moved, conv, added);
    hide Inv, Stored, Collected, Delivered, NothingDelivered, Deliverable, Deliver, Discard, KeysOf;
    var d := Deliverable(moved, conv, added);
    if d.Some? {
      DeliveredByDeliver(db, moved, conv, added, d.value, now);
    } else {
      DiscardRows(db, moved, added, now);
    }
  }

  lemma DeliverableFacts(moved: Db, conv: Conversation, added: seq<Entry>)
    ensures var d, open := Deliverable(moved, conv, added), OpenWindow(moved, conv);
      && (d.Some? <==> open.Some? && moved.windows[open.value].source in KeysOf(added))
      && (d.Some? ==>
            && KeyOf(d.value) == moved.windows[open.value].source
            && d.value in added && KeyOf(d.value) in KeysOf(added))
  {}

  lemma DeliveredByDeliver(db: Db, moved: Db, conv: Conversation, added: seq<Entry>, d: Entry, now: nat)
    requires Inv(db) && Stored(db, moved, added) && moved.images == Collected(db.images, added)
    requires d in added && KeyOf(d) in KeysOf(added) && KeyOf(d) in moved.messages
    requires forall k :: k in KeysOf(added) ==> k in moved.messages && moved.messages[k].conv == conv
    ensures var after := Deliver(moved, added, KeyOf(d), d.payload, now);
      Delivered(db, after, conv, added, KeyOf(d))
      && after.messages[KeyOf(d)].deferred == moved.messages[KeyOf(d)].deferred
  {
    hide Inv, Stored, Collected, WaitingLines, PageSummaries, ImagesFor, Deliver, KeysOf, Waiting, Join;
    DeliverRows(db, moved, conv, added, KeyOf(d), d.payload, now);
    DeliverContents(db, moved, conv, added, d, now);
  }

  lemma DiscardRows(db: Db, moved: Db, added: seq<Entry>, now: nat)
    requires Stored(db, moved, added)
    ensures NothingDelivered(db, Discard(moved, added, now), added)
  {
    StoredNew(db, moved, added);
    StoredKept(db, moved, added);
    hide Stored, KeysOf;
  }

  lemma DeliverWindows(db: Db, added: seq<Entry>, open: MessageKey, payload: Payload, now: nat)
    requires open in db.messages
    ensures Deliver(db, added, open, payload, now).windows == db.windows
    ensures Deliver(db, added, open, payload, now).nextWindow == db.nextWindow
  {}

  lemma FinishWindows(moved: Db, conv: Conversation, added: seq<Entry>, now: nat)
    ensures Finish(moved, conv, added, now).windows == moved.windows
    ensures Finish(moved, conv, added, now).nextWindow == moved.nextWindow
  {
    hide Deliver, Deliverable;
    var d := Deliverable(moved, conv, added);
    if d.Some? && KeyOf(d.value) in moved.messages {
      DeliverWindows(moved, added, KeyOf(d.value), d.value.payload, now);
    }
  }

  lemma StoredKept(db: Db, moved: Db, added: seq<Entry>)
    requires Stored(db, moved, added)
    ensures forall k :: k in db.messages ==> k in moved.messages && moved.messages[k] == db.messages[k]
    ensures forall k :: k in KeysOf(added) ==> k in moved.messages
  {}
}
