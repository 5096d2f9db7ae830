/**
 The two orders that a poll page is subject to: `entryIsNewer`, folded over the page to choose the
 open window, and `compareEntries`, used to sort the page's summaries.
 */
module PageOrder {
  import opened Basics
  import opened Tables

  /** One message of a poll page; `index` is its position in the provider's response. */
  datatype Entry = Entry(
    conv: Conversation,
    providerId: string,
    providerSeq: Option<nat>,
    sentAt: nat,
    index: nat,
    cursor: string,
    payload: Payload,
    images: seq<string>)

  // ---------------------------------------------------------------- numeric provider ids

  const NUMERIC_PREFIX := "message:"

  predicate AllDigits(s: string) {
    forall i :: 0 <= i < |s| ==> '0' <= s[i] <= '9'
  }

  function Decimal(s: string): nat
    requires AllDigits(s)
  {
    if s == [] then 0 else 10 * Decimal(s[..|s| - 1]) + (s[|s| - 1] as int - '0' as int)
  }

  /** The number in an id of the form `message:<digits>`. */
  function NumericId(id: string): Option<nat> {
    if |id| > |NUMERIC_PREFIX| && id[..|NUMERIC_PREFIX|] == NUMERIC_PREFIX && AllDigits(id[|NUMERIC_PREFIX|..])
    then Some(Decimal(id[|NUMERIC_PREFIX|..])) else None
  }

  // ---------------------------------------------------------------- the two comparisons

  function EntryIsNewer(
    entry: Entry, openSeq: Option<nat>, openIssued: nat, openId: string, samePage: bool): bool
  {
    if entry.providerSeq.Some? && openSeq.Some? && entry.providerSeq != openSeq then
      entry.providerSeq.value > openSeq.value
    else if entry.sentAt != openIssued then
      entry.sentAt > openIssued
    else if entry.providerSeq.None? != openSeq.None? then
      samePage
    else
      var candidate, open := NumericId(entry.providerId), NumericId(openId);
      if candidate.Some? && open.Some? then candidate.value > open.value else samePage
  }

  function CompareEntries(left: Entry, right: Entry): int {
    if left.providerSeq.Some? && right.providerSeq.Some? && left.providerSeq != right.providerSeq then
      left.providerSeq.value - right.providerSeq.value
    else if left.sentAt != right.sentAt then
      left.sentAt - right.sentAt
    else
      var l, r := NumericId(left.providerId), NumericId(right.providerId);
      if l.None? || r.None? then left.index - right.index
      else if l.value < r.value then -1 else if l.value > r.value then 1 else 0
  }

  // ---------------------------------------------------------------- when the comparison orders a page

  /** Which optional ordering keys an entry carries. */
  datatype Shape = Shape(hasSeq: bool, numeric: bool)

  ghost predicate Indexed(page: seq<Entry>) {
    forall i, j :: 0 <= i < j < |page| ==> page[i].index < page[j].index
  }

  ghost predicate Fits(page: seq<Entry>, shapes: seq<Shape>) {
    && |page| == |shapes|
    && Indexed(page)
    && forall i :: 0 <= i < |page| ==>
         && page[i].providerSeq.Some? == shapes[i].hasSeq
         && NumericId(page[i].providerId).Some? == shapes[i].numeric
  }

  ghost predicate Transitive(page: seq<Entry>) {
    forall x, y, z | x in page && y in page && z in page && CompareEntries(x, y) <= 0 && CompareEntries(y, z) <= 0 ::
      CompareEntries(x, z) <= 0
  }

  /** Either at most one entry or every entry has a provider sequence. */
  ghost predicate SeqOrderly(shapes: seq<Shape>) {
    forall i, j, k | 0 <= i < |shapes| && 0 <= j < |shapes| && 0 <= k < |shapes| ::
      i != j && shapes[i].hasSeq && shapes[j].hasSeq ==> shapes[k].hasSeq
  }

  /** No entry without a numeric id stands between two entries that have one. */
  ghost predicate NumericOrderly(shapes: seq<Shape>) {
    forall i, j, k :: 0 <= i < j < k < |shapes| && shapes[i].numeric && shapes[k].numeric ==> shapes[j].numeric
  }

  ghost predicate Orderly(shapes: seq<Shape>) {
    SeqOrderly(shapes) && NumericOrderly(shapes)
  }

  lemma OrderlyPageIsTransitive(page: seq<Entry>, shapes: seq<Shape>)
    requires Fits(page, shapes) && Orderly(shapes)
    ensures Transitive(page)
  {
    forall x, y, z | x in page && y in page && z in page
      && CompareEntries(x, y) <= 0 && CompareEntries(y, z) <= 0
      ensures CompareEntries(x, z) <= 0
    {
      var i :| 0 <= i < |page| && page[i] == x;
      var j :| 0 <= j < |page| && page[j] == y;
      var k :| 0 <= k < |page| && page[k] == z;
      assert i != j && shapes[i].hasSeq && shapes[j].hasSeq ==> shapes[k].hasSeq;
      assert i != k && shapes[i].hasSeq && shapes[k].hasSeq ==> shapes[j].hasSeq;
      assert j != k && shapes[j].hasSeq && shapes[k].hasSeq ==> shapes[i].hasSeq;
    }
  }

  function Sample(seqNo: Option<nat>, sentAt: nat, id: string, index: nat): Entry {
    Entry(Conversation(WeixinIlink, "", ""), id, seqNo, sentAt, index, "", Payload("", "", 0), [])
  }

  lemma DigitIds()
    ensures NumericId("message:5") == Some(5) && NumericId("message:3") == Some(3) && NumericId("client:x").None?
  {
    assert "message:5"[8..] == "5" && "message:5"[..8] == NUMERIC_PREFIX;
    assert "message:3"[8..] == "3" && "message:3"[..8] == NUMERIC_PREFIX;
    assert Decimal("5") == 10 * Decimal("5"[..0]) + 5 && Decimal("3") == 10 * Decimal("3"[..0]) + 3;
    assert |"client:x"| == 8;
  }

  /** Two entries with a sequence and one without: sent 10, 3 and 5, sequences 1, 2 and none. */
  lemma MixedSeqPage(shapes: seq<Shape>, i: nat, j: nat, k: nat) returns (page: seq<Entry>)
    requires i < |shapes| && j < |shapes| && k < |shapes| && i != j
    requires shapes[i].hasSeq && shapes[j].hasSeq && !shapes[k].hasSeq
    ensures Fits(page, shapes) && !Transitive(page)
  {
    DigitIds();
    page := seq(|shapes|, n requires 0 <= n < |shapes| => Sample(
      if shapes[n].hasSeq then Some(if n == i then 1 else 2) else None,
      if n == i then 10 else if n == j then 3 else 5,
      if shapes[n].numeric then "message:5" else "client:x", n));
    assert page[i] in page && page[j] in page && page[k] in page;
    assert CompareEntries(page[j], page[k]) <= 0 && CompareEntries(page[k], page[i]) <= 0;
  }

  /** A non-numeric id between two numeric ones, all sent at the same time. */
  lemma MixedNumericPage(shapes: seq<Shape>, i: nat, j: nat, k: nat) returns (page: seq<Entry>)
    requires i < j < k < |shapes| && shapes[i].numeric && !shapes[j].numeric && shapes[k].numeric
    ensures Fits(page, shapes) && !Transitive(page)
  {
    DigitIds();
    page := seq(|shapes|, n requires 0 <= n < |shapes| => Sample(
      if shapes[n].hasSeq then Some(1) else None, 0,
      if !shapes[n].numeric then "client:x" else if n == k then "message:3" else "message:5", n));
    assert page[i] in page && page[j] in page && page[k] in page;
    assert CompareEntries(page[i], page[j]) <= 0 && CompareEntries(page[j], page[k]) <= 0;
  }

  /**
   `compareEntries` orders every page of a shape exactly if the shape is orderly. A homogeneous page
   (all or none with a sequence, all or none numeric) is orderly.
   */
  lemma OrderlyExactly(shapes: seq<Shape>)
    ensures Orderly(shapes) <==> forall page :: Fits(page, shapes) ==> Transitive(page)
  {
    if Orderly(shapes) {
      forall page | Fits(page, shapes) ensures Transitive(page) {
        OrderlyPageIsTransitive(page, shapes);
      }
    } else if !SeqOrderly(shapes) {
      var i, j, k :| 0 <= i < |shapes| && 0 <= j < |shapes| && 0 <= k < |shapes|
        && i != j && shapes[i].hasSeq && shapes[j].hasSeq && !shapes[k].hasSeq;
      var page := MixedSeqPage(shapes, i, j, k);
    } else {
      var i, j, k :| 0 <= i < j < k < |shapes| && shapes[i].numeric && shapes[k].numeric && !shapes[j].numeric;
      var page := MixedNumericPage(shapes, i, j, k);
    }
  }

  // ---------------------------------------------------------------- the stable sort

  /** Insert an element behind every element it does not precede. */
  function InsertSorted(e: Entry, sorted: seq<Entry>): seq<Entry> {
    if sorted == [] then [e]
    else if CompareEntries(sorted[|sorted| - 1], e) <= 0 then sorted + [e]
    else InsertSorted(e, sorted[..|sorted| - 1]) + [sorted[|sorted| - 1]]
  }

  /** `Array.prototype.sort` with `compareEntries`: stable. */
  function StableSort(page: seq<Entry>): seq<Entry> {
    if page == [] then [] else InsertSorted(page[|page| - 1], StableSort(page[..|page| - 1]))
  }

  /** `x` stands before `y` in a stable sort. */
  ghost predicate Before(x: Entry, y: Entry) {
    CompareEntries(x, y) < 0 || (CompareEntries(x, y) == 0 && x.index < y.index)
  }

  ghost predicate StrictlySorted(s: seq<Entry>) {
    forall i, j :: 0 <= i < j < |s| ==> Before(s[i], s[j])
  }

  lemma {:induction false} InsertSortedKeeps(e: Entry, sorted: seq<Entry>)
    ensures multiset(InsertSorted(e, sorted)) == multiset(sorted) + multiset{e}
    ensures |InsertSorted(e, sorted)| == |sorted| + 1
  {
    if sorted != [] && CompareEntries(sorted[|sorted| - 1], e) > 0 {
      InsertSortedKeeps(e, sorted[..|sorted| - 1]);
      assert sorted == sorted[..|sorted| - 1] + [sorted[|sorted| - 1]];
    }
  }

  lemma {:induction false} StableSortKeeps(page: seq<Entry>)
    ensures multiset(StableSort(page)) == multiset(page) && |StableSort(page)| == |page|
  {
    hide InsertSorted;
    if page != [] {
      var init, last := page[..|page| - 1], page[|page| - 1];
      StableSortKeeps(init);
      InsertSortedKeeps(last, StableSort(init));
      assert page == init + [last];
      assert multiset(page) == multiset(init) + multiset{last};
    }
  }

  lemma InMultiset(s: seq<Entry>, t: seq<Entry>, e: Entry)
    requires multiset(s) == multiset(t) && e in s
    ensures e in t
  {
    assert e in multiset(s);
  }

  lemma SnocSorted(s: seq<Entry>, e: Entry)
    requires StrictlySorted(s) && forall x :: x in s ==> Before(x, e)
    ensures StrictlySorted(s + [e])
  {
    hide Before;
    forall i, j | 0 <= i < j < |s + [e]| ensures Before((s + [e])[i], (s + [e])[j]) {
      if j == |s| { assert s[i] in s; }
    }
  }

  lemma BeforeChain(page: seq<Entry>, x: Entry, last: Entry, e: Entry)
    requires Transitive(page) && x in page && last in page && e in page
    requires Before(x, last) && CompareEntries(last, e) <= 0 && x.index < e.index && last.index < e.index
    ensures Before(x, e)
  {
    hide CompareEntries;
    assert CompareEntries(x, last) <= 0;
  }

  lemma {:induction false} InsertSortedSorts(e: Entry, sorted: seq<Entry>, page: seq<Entry>)
    requires Transitive(page) && e in page && StrictlySorted(sorted)
    requires forall x :: x in sorted ==> x in page && x.index < e.index
    ensures StrictlySorted(InsertSorted(e, sorted))
  {
    if sorted == [] {
    } else if CompareEntries(sorted[|sorted| - 1], e) <= 0 {
      var last := sorted[|sorted| - 1];
      forall x | x in sorted ensures Before(x, e) {
        var i :| 0 <= i < |sorted| && sorted[i] == x;
        if i < |sorted| - 1 {
          assert Before(sorted[i], last);
          BeforeChain(page, x, last, e);
        }
      }
      hide Transitive, CompareEntries, Before;
      SnocSorted(sorted, e);
    } else {
      var init, last := sorted[..|sorted| - 1], sorted[|sorted| - 1];
      InsertSortedSorts(e, init, page);
      InsertSortedKeeps(e, init);
      var r := InsertSorted(e, init);
      forall x | x in r ensures Before(x, last) {
        assert x in multiset(r);
        if x != e {
          assert x in multiset(init);
          var n :| 0 <= n < |init| && init[n] == x;
          assert sorted[n] == init[n];
        } else {
          CompareIsAntisymmetric(e, last);
        }
      }
      hide Transitive, CompareEntries, Before;
      SnocSorted(r, last);
    }
  }

  lemma {:induction false} StableSortSorts(part: seq<Entry>, page: seq<Entry>)
    requires part <= page && Indexed(page) && Transitive(page)
    ensures StrictlySorted(StableSort(part))
  {
    if part != [] {
      var init, last := part[..|part| - 1], part[|part| - 1];
      StableSortSorts(init, page);
      StableSortKeeps(init);
      forall x | x in StableSort(init) ensures x in page && x.index < last.index {
        InMultiset(StableSort(init), init, x);
        var n :| 0 <= n < |init| && init[n] == x;
        assert page[n] == x && page[|part| - 1] == last;
      }
      assert last == page[|part| - 1];
      InsertSortedSorts(last, StableSort(init), page);
    }
  }

  lemma CompareIsAntisymmetric(x: Entry, y: Entry)
    ensures CompareEntries(x, y) == -CompareEntries(y, x)
  {}

  lemma BeforeIsAsymmetric(x: Entry, y: Entry)
    ensures !(Before(x, y) && Before(y, x))
  {
    CompareIsAntisymmetric(x, y);
  }

  lemma SameLast(s: seq<Entry>, t: seq<Entry>)
    requires s != [] && t != [] && multiset(s) == multiset(t) && StrictlySorted(s) && StrictlySorted(t)
    ensures s[|s| - 1] == t[|t| - 1]
  {
    var x, y := s[|s| - 1], t[|t| - 1];
    InMultiset(s, t, x);
    InMultiset(t, s, y);
    var n :| 0 <= n < |t| && t[n] == x;
    var m :| 0 <= m < |s| && s[m] == y;
    if n < |t| - 1 && m < |s| - 1 { BeforeIsAsymmetric(x, y); }
  }

  lemma StrictlySortedInit(s: seq<Entry>)
    requires s != [] && StrictlySorted(s)
    ensures StrictlySorted(s[..|s| - 1]) && multiset(s[..|s| - 1]) == multiset(s) - multiset{s[|s| - 1]}
  {
    assert s == s[..|s| - 1] + [s[|s| - 1]];
  }

  lemma SameSize(s: seq<Entry>, t: seq<Entry>)
    requires multiset(s) == multiset(t)
    ensures |s| == |t|
  {
    assert |s| == |multiset(s)| == |multiset(t)| == |t|;
  }

  lemma WithoutLast(s: seq<Entry>, t: seq<Entry>)
    requires s != [] && t != [] && multiset(s) == multiset(t) && StrictlySorted(s) && StrictlySorted(t)
    ensures s[|s| - 1] == t[|t| - 1]
    ensures multiset(s[..|s| - 1]) == multiset(t[..|t| - 1])
    ensures StrictlySorted(s[..|s| - 1]) && StrictlySorted(t[..|t| - 1])
  {
    hide StrictlySorted;
    SameLast(s, t);
    StrictlySortedInit(s);
    StrictlySortedInit(t);
  }

  /** On an ordered page every stable sort gives the same sequence, so the sorting algorithm does not matter. */
  lemma {:induction false} StableSortIsUnique(s: seq<Entry>, t: seq<Entry>)
    requires multiset(s) == multiset(t) && StrictlySorted(s) && StrictlySorted(t)
    ensures s == t
  {
    hide StrictlySorted;
    SameSize(s, t);
    if s != [] {
      WithoutLast(s, t);
      StableSortIsUnique(s[..|s| - 1], t[..|t| - 1]);
      assert s == s[..|s| - 1] + [s[|s| - 1]] && t == t[..|t| - 1] + [t[|t| - 1]];
    }
  }

  // ---------------------------------------------------------------- the fold

  /** The source of the open window after a later entry of the same page. */
  function Newest(open: Entry, last: Entry): Entry {
    if EntryIsNewer(last, open.providerSeq, open.sentAt, open.providerId, true) then last else open
  }

  /** The entry whose window a page leaves open when no window was open before it. */
  function FoldNewest(page: seq<Entry>): Entry
    requires page != []
  {
    if |page| == 1 then page[0] else Newest(FoldNewest(page[..|page| - 1]), page[|page| - 1])
  }

  /** Two entries share the top place: neither is ordered before the other. */
  ghost predicate TopTies(page: seq<Entry>) {
    exists x, y :: x in page && y in page && x != y && CompareEntries(x, y) == 0
      && forall z :: z in page ==> CompareEntries(z, x) <= 0
  }

  /** All entries or none have a provider sequence. */
  ghost predicate SeqUniform(page: seq<Entry>) {
    forall x, y :: x in page && y in page ==> x.providerSeq.Some? == y.providerSeq.Some?
  }

  /** Sent at the same time, and only one of the two has a provider sequence. */
  predicate OtherKind(x: Entry, y: Entry) {
    x.sentAt == y.sentAt && x.providerSeq.Some? != y.providerSeq.Some?
  }

  /** Against a window opened earlier on the same page, a later entry wins by the order or as one of the other kind. */
  lemma NewerIsGreater(open: Entry, last: Entry)
    requires open.index < last.index
    ensures EntryIsNewer(last, open.providerSeq, open.sentAt, open.providerId, true)
      <==> CompareEntries(open, last) < 0 || OtherKind(open, last)
  {}

  lemma Chain(whole: seq<Entry>, x: Entry, y: Entry, z: Entry)
    requires Transitive(whole) && x in whole && y in whole && z in whole
    requires CompareEntries(x, y) <= 0 && CompareEntries(y, z) <= 0
    ensures CompareEntries(x, z) <= 0
    ensures CompareEntries(x, y) < 0 || CompareEntries(y, z) < 0 ==> CompareEntries(x, z) < 0
  {
    CompareIsAntisymmetric(x, y);
    CompareIsAntisymmetric(y, z);
    CompareIsAntisymmetric(x, z);
    assert CompareEntries(z, x) <= 0 ==> CompareEntries(y, x) <= 0 && CompareEntries(z, y) <= 0;
  }

  /** `m` is the last element of a strict sort of the page. */
  ghost predicate LastMaximum(page: seq<Entry>, m: Entry) {
    && m in page
    && forall z :: z in page ==> z == m || Before(z, m)
  }

  /** The last element of the sort is behind every element of the page. */
  lemma LastIsMaximum(page: seq<Entry>)
    requires page != [] && Indexed(page) && Transitive(page)
    ensures |StableSort(page)| == |page| && LastMaximum(page, StableSort(page)[|page| - 1])
  {
    var s := StableSort(page);
    StableSortKeeps(page);
    StableSortSorts(page, page);
    InMultiset(s, page, s[|page| - 1]);
    forall z | z in page ensures z == s[|page| - 1] || Before(z, s[|page| - 1]) {
      InMultiset(page, s, z);
      var n :| 0 <= n < |s| && s[n] == z;
    }
  }

  // ---------------------------------------------------------------- when the fold agrees with the sort

  /** The entry ties with `m` and is of its kind. */
  predicate Rivals(x: Entry, m: Entry) {
    CompareEntries(x, m) == 0 && x.providerSeq.Some? == m.providerSeq.Some?
  }

  /** Among the first `n` entries a rival of `m` is followed by no entry of the other kind. */
  ghost predicate RivalHolds(page: seq<Entry>, n: nat, m: Entry)
    requires n <= |page|
  {
    exists i :: 0 <= i < n && Rivals(page[i], m) && forall j :: i < j < n ==> !OtherKind(page[j], m)
  }

  /**
   The entry at `p` keeps the window: every rival before it is dislodged by an entry of the other kind
   in between, and no entry of the other kind comes after it.
   */
  ghost predicate Stands(page: seq<Entry>, p: nat)
    requires p < |page|
  {
    && !RivalHolds(page, p, page[p])
    && forall j :: p < j < |page| ==> !OtherKind(page[j], page[p])
  }

  lemma RivalHoldsSnoc(page: seq<Entry>, n: nat, m: Entry)
    requires n < |page|
    ensures RivalHolds(page, n + 1, m) <==>
      Rivals(page[n], m) || (RivalHolds(page, n, m) && !OtherKind(page[n], m))
  {
    hide Rivals, OtherKind;
    if RivalHolds(page, n, m) && !OtherKind(page[n], m) {
      var i :| 0 <= i < n && Rivals(page[i], m) && forall j :: i < j < n ==> !OtherKind(page[j], m);
      assert forall j :: i < j < n + 1 ==> !OtherKind(page[j], m);
    }
  }

  lemma FoldSnoc(page: seq<Entry>, n: nat)
    requires 0 < n < |page|
    ensures FoldNewest(page[..n + 1]) == Newest(FoldNewest(page[..n]), page[n])
  {
    assert page[..n + 1][..n] == page[..n];
  }

  lemma {:induction false} FoldWithin(page: seq<Entry>, n: nat)
    requires 0 < n <= |page|
    ensures exists i :: 0 <= i < n && page[i] == FoldNewest(page[..n])
  {
    hide EntryIsNewer;
    if n > 1 {
      FoldWithin(page, n - 1);
      FoldSnoc(page, n - 1);
      var i :| 0 <= i < n - 1 && page[i] == FoldNewest(page[..n - 1]);
      assert FoldNewest(page[..n]) == page[i] || FoldNewest(page[..n]) == page[n - 1];
    } else {
      assert page[0] == FoldNewest(page[..1]);
    }
  }

  /** One more entry before `m`: what the fold holds is a rival of `m` as long as one holds out. */
  lemma RivalStep(page: seq<Entry>, open: Entry, e: Entry, m: Entry)
    requires Transitive(page) && open in page && e in page && m in page && open.index < e.index
    requires CompareEntries(open, m) <= 0 && CompareEntries(e, m) <= 0
    ensures Rivals(Newest(open, e), m) <==> Rivals(e, m) || (Rivals(open, m) && !OtherKind(e, m))
  {
    NewerIsGreater(open, e);
    CompareIsAntisymmetric(open, e);
    if CompareEntries(open, e) <= 0 { Chain(page, open, e, m); } else { Chain(page, e, open, m); }
    SameTime(open, m);
    SameTime(e, m);
    SameTime(open, e);
    hide Transitive, CompareEntries, EntryIsNewer;
  }

  lemma SameTime(x: Entry, y: Entry)
    ensures CompareEntries(x, y) == 0 ==> x.sentAt == y.sentAt
  {}

  lemma {:induction false} FoldHoldsRival(page: seq<Entry>, n: nat, m: Entry)
    requires 0 < n <= |page| && Indexed(page) && Transitive(page) && m in page
    requires forall i :: 0 <= i < n ==> CompareEntries(page[i], m) <= 0
    ensures Rivals(FoldNewest(page[..n]), m) <==> RivalHolds(page, n, m)
  {
    hide CompareEntries, Rivals, OtherKind, Transitive, EntryIsNewer;
    if n > 1 {
      FoldHoldsRival(page, n - 1, m);
      FoldSnoc(page, n - 1);
      FoldWithin(page, n - 1);
      var open := FoldNewest(page[..n - 1]);
      var i :| 0 <= i < n - 1 && page[i] == open;
      RivalStep(page, open, page[n - 1], m);
      RivalHoldsSnoc(page, n - 1, m);
    } else {
      RivalHoldsSnoc(page, 0, m);
    }
  }

  /** Once `m` has arrived: whether the fold holds it then. */
  lemma FoldTakes(page: seq<Entry>, p: nat)
    requires p < |page| && Indexed(page) && Transitive(page)
    requires forall i :: 0 <= i < p ==> CompareEntries(page[i], page[p]) <= 0
    ensures FoldNewest(page[..p + 1]) == page[p] <==> !RivalHolds(page, p, page[p])
  {
    if p > 0 {
      var m := page[p];
      FoldHoldsRival(page, p, m);
      FoldSnoc(page, p);
      FoldWithin(page, p);
      var open := FoldNewest(page[..p]);
      var i :| 0 <= i < p && page[i] == open;
      NewerIsGreater(open, m);
      SameTime(open, m);
    }
  }

  /** After `m` only an entry of the other kind takes the window from it. */
  lemma {:induction false} FoldKeeps(page: seq<Entry>, p: nat, n: nat)
    requires p < n <= |page| && Indexed(page)
    requires forall j :: p < j < |page| ==> CompareEntries(page[j], page[p]) <= 0
    ensures FoldNewest(page[..n]) == page[p] <==>
      FoldNewest(page[..p + 1]) == page[p] && forall j :: p < j < n ==> !OtherKind(page[j], page[p])
  {
    hide CompareEntries, OtherKind, EntryIsNewer;
    if n > p + 1 {
      FoldKeeps(page, p, n - 1);
      FoldSnoc(page, n - 1);
      NewerIsGreater(page[p], page[n - 1]);
      CompareIsAntisymmetric(page[p], page[n - 1]);
      KindIsSymmetric(page[p], page[n - 1]);
      assert page[n - 1] != page[p];
    }
  }

  lemma KindIsSymmetric(x: Entry, y: Entry)
    ensures OtherKind(x, y) == OtherKind(y, x)
  {}

  /** The place of the last entry of the sort. */
  lemma LastAt(page: seq<Entry>) returns (p: nat)
    requires page != [] && Indexed(page) && Transitive(page)
    ensures p < |page| && |StableSort(page)| == |page| && page[p] == StableSort(page)[|page| - 1]
    ensures forall i :: 0 <= i < |page| ==> CompareEntries(page[i], page[p]) <= 0
    ensures forall i :: p < i < |page| ==> CompareEntries(page[i], page[p]) < 0
  {
    LastIsMaximum(page);
    var last := StableSort(page)[|page| - 1];
    p :| 0 <= p < |page| && page[p] == last;
    CompareIsAntisymmetric(last, last);
    forall i | 0 <= i < |page|
      ensures CompareEntries(page[i], last) <= 0 && (i > p ==> CompareEntries(page[i], last) < 0)
    {
      assert page[i] in page;
      assert page[i] == last || Before(page[i], last);
    }
  }

  /**
   On every page that `compareEntries` orders, and with no window open beforehand, the fold leaves open
   the window of the last entry of the sort exactly if that entry stands.
   */
  lemma FoldAgreesExactly(page: seq<Entry>)
    requires page != [] && Indexed(page) && Transitive(page)
    ensures |StableSort(page)| == |page|
    ensures FoldNewest(page) == StableSort(page)[|page| - 1] <==>
      exists p :: 0 <= p < |page| && page[p] == StableSort(page)[|page| - 1] && Stands(page, p)
  {
    var p := LastAt(page);
    FoldTakes(page, p);
    FoldKeeps(page, p, |page|);
    assert page[..|page|] == page;
    forall q | 0 <= q < |page| && page[q] == page[p] ensures q == p {
      assert !(q < p) && !(p < q);
    }
  }

  /** If all entries or none have a provider sequence, that is: exactly if the top place of the page is not shared. */
  lemma FoldAgreesWithoutTies(page: seq<Entry>)
    requires page != [] && Indexed(page) && SeqUniform(page) && Transitive(page)
    ensures |StableSort(page)| == |page|
    ensures FoldNewest(page) == StableSort(page)[|page| - 1] <==> !TopTies(page)
  {
    var p := LastAt(page);
    FoldTakes(page, p);
    FoldKeeps(page, p, |page|);
    assert page[..|page|] == page;
    forall j | 0 <= j < |page| ensures !OtherKind(page[j], page[p]) { assert page[j] in page && page[p] in page; }
    TiesAreRivals(page, p);
  }

  lemma RivalTies(page: seq<Entry>, p: nat, i: nat)
    requires i < p < |page| && Indexed(page) && Rivals(page[i], page[p])
    requires forall i :: 0 <= i < |page| ==> CompareEntries(page[i], page[p]) <= 0
    ensures TopTies(page)
  {
    var m := page[p];
    CompareIsAntisymmetric(page[i], m);
    assert page[i] in page && m in page && page[i] != m;
    hide CompareEntries;
    forall z | z in page ensures CompareEntries(z, m) <= 0 { var n :| 0 <= n < |page| && page[n] == z; }
  }

  lemma TieIsRival(page: seq<Entry>, p: nat, x: Entry, y: Entry)
    requires p < |page| && SeqUniform(page) && Transitive(page)
    requires forall i :: 0 <= i < |page| ==> CompareEntries(page[i], page[p]) <= 0
    requires forall i :: p < i < |page| ==> CompareEntries(page[i], page[p]) < 0
    requires x in page && y in page && x != y && CompareEntries(x, y) == 0
    requires forall z :: z in page ==> CompareEntries(z, x) <= 0
    ensures exists r :: 0 <= r < p && Rivals(page[r], page[p])
  {
    var m := page[p];
    var i :| 0 <= i < |page| && page[i] == x;
    var j :| 0 <= j < |page| && page[j] == y;
    CompareIsAntisymmetric(x, y);
    CompareIsAntisymmetric(x, m);
    CompareIsAntisymmetric(y, m);
    Chain(page, m, x, y);
    hide CompareEntries, Transitive;
    var r := if x == m then j else i;
    assert page[r] in page && m in page && CompareEntries(page[r], m) == 0;
    assert r != p;
    assert Rivals(page[r], m) && r < p;
  }

  lemma TiesAreRivals(page: seq<Entry>, p: nat)
    requires p < |page| && Indexed(page) && SeqUniform(page) && Transitive(page)
    requires forall i :: 0 <= i < |page| ==> CompareEntries(page[i], page[p]) <= 0
    requires forall i :: p < i < |page| ==> CompareEntries(page[i], page[p]) < 0
    requires forall j :: 0 <= j < |page| ==> !OtherKind(page[j], page[p])
    ensures TopTies(page) <==> RivalHolds(page, p, page[p])
  {
    hide CompareEntries, Transitive, SeqUniform, Rivals, OtherKind;
    if RivalHolds(page, p, page[p]) {
      var i :| 0 <= i < p && Rivals(page[i], page[p]);
      RivalTies(page, p, i);
    }
    if TopTies(page) {
      var x, y :| x in page && y in page && x != y && CompareEntries(x, y) == 0
        && forall z :: z in page ==> CompareEntries(z, x) <= 0;
      TieIsRival(page, p, x, y);
    }
  }

  /**
   One entry with a provider sequence among others without is enough to part the fold from the sort, on
   a page that is ordered, without ties and with canonical ids: a later entry of the other kind always wins.
   */
  lemma OneSequencedEntryDisagrees()
    ensures var x, y := Sample(None, 0, "message:5", 0), Sample(Some(1), 0, "message:3", 1);
      && Orderly([Shape(false, true), Shape(true, true)]) && Fits([x, y], [Shape(false, true), Shape(true, true)])
      && !TopTies([x, y]) && FoldNewest([x, y]) == y && StableSort([x, y]) == [y, x]
  {
    var x, y := Sample(None, 0, "message:5", 0), Sample(Some(1), 0, "message:3", 1);
    DigitIds();
    assert [x, y][..1] == [x] && [x][..0] == [];
    assert StableSort([x]) == InsertSorted(x, []);
    assert StableSort([x, y]) == InsertSorted(y, [x]);
    assert InsertSorted(y, [x]) == InsertSorted(y, []) + [x];
    assert FoldNewest([x]) == x;
  }

  /** Two distinct ids can tie: with and without a leading zero. */
  lemma LeadingZeroTies()
    ensures var x, y := Sample(None, 0, "message:5", 0), Sample(None, 0, "message:05", 1);
      TopTies([x, y]) && FoldNewest([x, y]) == x && StableSort([x, y]) == [x, y]
  {
    var x, y := Sample(None, 0, "message:5", 0), Sample(None, 0, "message:05", 1);
    DigitIds();
    assert "message:05"[8..] == "05" && "message:05"[..8] == NUMERIC_PREFIX;
    assert "05"[..1] == "0" && "0"[..0] == "";
    assert Decimal("0") == 10 * Decimal("") + 0;
    assert Decimal("05") == 10 * Decimal("0") + 5;
    assert CompareEntries(x, y) == 0;
    assert x in [x, y] && y in [x, y];
    assert [x, y][..1] == [x] && [x][..0] == [];
    assert StableSort([x]) == InsertSorted(x, []);
    assert StableSort([x, y]) == InsertSorted(y, [x]);
    assert FoldNewest([x]) == x;
  }

  /** A decimal numeral as `String(number)` writes it. */
  ghost predicate Canonical(s: string) {
    s != [] && AllDigits(s) && (|s| > 1 ==> s[0] != '0')
  }

  lemma {:induction false} CanonicalPositive(s: string)
    requires AllDigits(s) && s != [] && s[0] != '0'
    ensures Decimal(s) > 0
  {
    if |s| > 1 { CanonicalPositive(s[..|s| - 1]); }
  }

  lemma {:induction false} CanonicalInjective(s: string, t: string)
    requires Canonical(s) && Canonical(t) && Decimal(s) == Decimal(t)
    ensures s == t
  {
    var s', t' := s[..|s| - 1], t[..|t| - 1];
    assert Decimal(s') == Decimal(t') && s[|s| - 1] == t[|t| - 1];
    if |s| > 1 { CanonicalPositive(s'); }
    if |t| > 1 { CanonicalPositive(t'); }
    if |s| > 1 && |t| > 1 { CanonicalInjective(s', t'); }
    assert s == s' + [s[|s| - 1]] && t == t' + [t[|t| - 1]];
  }

  lemma TieCases(x: Entry, y: Entry)
    requires CompareEntries(x, y) == 0
    ensures x.index == y.index || (NumericId(x.providerId).Some? && NumericId(x.providerId) == NumericId(y.providerId))
  {}

  lemma SameNumberSameId(a: string, b: string)
    requires NumericId(a).Some? && NumericId(a) == NumericId(b)
    requires Canonical(a[|NUMERIC_PREFIX|..]) && Canonical(b[|NUMERIC_PREFIX|..])
    ensures a == b
  {
    CanonicalInjective(a[|NUMERIC_PREFIX|..], b[|NUMERIC_PREFIX|..]);
    assert a == a[..|NUMERIC_PREFIX|] + a[|NUMERIC_PREFIX|..] && b == b[..|NUMERIC_PREFIX|] + b[|NUMERIC_PREFIX|..];
  }

  /** Distinct ids as the provider client writes them. */
  ghost predicate CanonicalIds(page: seq<Entry>) {
    && (forall x, y :: x in page && y in page && x != y ==> x.providerId != y.providerId)
    && (forall x | x in page && NumericId(x.providerId).Some? :: Canonical(x.providerId[|NUMERIC_PREFIX|..]))
  }

  lemma NoRival(page: seq<Entry>, p: nat, i: nat)
    requires i < p < |page| && Indexed(page) && CanonicalIds(page)
    ensures !Rivals(page[i], page[p])
  {
    assert page[i] in page && page[p] in page && page[i].index < page[p].index;
    hide CompareEntries, Canonical, NumericId;
    if Rivals(page[i], page[p]) {
      TieCases(page[i], page[p]);
      SameNumberSameId(page[i].providerId, page[p].providerId);
    }
  }

  /** With such ids nothing ties, so only entries of the other kind part the fold from the sort. */
  lemma CanonicalIdsAgree(page: seq<Entry>)
    requires page != [] && Indexed(page) && Transitive(page) && CanonicalIds(page)
    ensures |StableSort(page)| == |page|
    ensures var last := StableSort(page)[|page| - 1];
      FoldNewest(page) == last <==> forall z :: z in page && z.index > last.index ==> !OtherKind(z, last)
  {
    var p := LastAt(page);
    var last := page[p];
    FoldTakes(page, p);
    FoldKeeps(page, p, |page|);
    assert page[..|page|] == page;
    hide CompareEntries, Transitive, CanonicalIds, Rivals, OtherKind, EntryIsNewer, FoldNewest, StableSort;
    forall i | 0 <= i < p ensures !Rivals(page[i], last) { NoRival(page, p, i); }
    LaterByIndex(page, p);
  }

  lemma LaterByIndex(page: seq<Entry>, p: nat)
    requires p < |page| && Indexed(page)
    ensures (forall z :: z in page && z.index > page[p].index ==> !OtherKind(z, page[p]))
      <==> forall j :: p < j < |page| ==> !OtherKind(page[j], page[p])
  {
    hide OtherKind;
    if forall j :: p < j < |page| ==> !OtherKind(page[j], page[p]) {
      forall z | z in page && z.index > page[p].index ensures !OtherKind(z, page[p]) {
        var j :| 0 <= j < |page| && page[j] == z;
        assert !(j < p) && j != p;
      }
    }
    if forall z :: z in page && z.index > page[p].index ==> !OtherKind(z, page[p]) {
      forall j | p < j < |page| ensures !OtherKind(page[j], page[p]) { assert page[j] in page; }
    }
  }
}
