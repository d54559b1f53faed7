/** Reading the entries of the active round page by page, each page naming the cursor of the
    next (contracts/src/queries.rs). */
module Cursors {
  import opened Types
  import opened Sums
  import opened Ledger
  import opened Books
  import opened Invariants
  import opened Market
  import opened Archive

  // ----- following a cursor -----

  /** The first position whose address is above the cursor. */
  function Above(users: seq<Address>, cursor: Option<Address>, from: nat): (start: nat)
    requires from <= |users|
    ensures from <= start <= |users|
    decreases |users| - from
  {
    if cursor.None? || from == |users| || users[from] > cursor.value then from else Above(users, cursor, from + 1)
  }

  /** The users that have an entry, with their entries. */
  function Present<T>(m: map<Address, T>, users: seq<Address>): seq<(Address, T)> {
    if users == [] then []
    else
      var last := users[|users| - 1];
      Present(m, users[..|users| - 1]) + if last in m then [(last, m[last])] else []
  }

  /** One page, and the cursor for the next: the last address on it. */
  function CursorPage<T>(m: map<Address, T>, users: seq<Address>, start: nat, limit: nat): (seq<(Address, T)>, Option<Address>)
    requires start <= |users|
  {
    var items := Present(m, users[start..EndOf(start, limit, |users|)]);
    (items, if items == [] then None else Some(items[|items| - 1].0))
  }

  lemma {:induction false} PresentFacts<T>(m: map<Address, T>, users: seq<Address>)
    ensures var items := Present(m, users);
            && (items != [] ==> items[|items| - 1].0 in users)
            && ((forall u :: u in users ==> u in m) ==>
                  |items| == |users| && forall i :: 0 <= i < |users| ==> items[i] == (users[i], m[users[i]]))
            && ((forall u :: u in users ==> u !in m) ==> items == [])
  {
    if users != [] { PresentFacts(m, users[..|users| - 1]); }
  }

  lemma {:induction false} PresentConcat<T>(m: map<Address, T>, a: seq<Address>, b: seq<Address>)
    ensures Present(m, a + b) == Present(m, a) + Present(m, b)
  {
    if b == [] {
      assert a + b == a;
    } else {
      PresentConcat(m, a, b[..|b| - 1]);
      assert (a + b)[..|a + b| - 1] == a + b[..|b| - 1];
    }
  }

  /** In ascending order, the cursor of position `i` leads to position `i + 1`. */
  lemma {:induction false} AboveIs(users: seq<Address>, i: nat, from: nat)
    requires i < |users| && from <= i + 1 && StrictlyUp(users)
    ensures Above(users, Some(users[i]), from) == i + 1
    decreases |users| - from
  {
    if from <= i { AboveIs(users, i, from + 1); }
  }

  ghost predicate StrictlyUp(users: seq<Address>) {
    forall a, b :: 0 <= a < b < |users| ==> users[a] < users[b]
  }

  /** A cursor leads past the page it came with. */
  lemma NextIsLater<T>(m: map<Address, T>, users: seq<Address>, start: nat, limit: nat)
    requires start <= |users| && StrictlyUp(users)
    ensures var page := CursorPage(m, users, start, limit); page.1.Some? ==> Above(users, page.1, 0) > start
  {
    var slice := users[start..EndOf(start, limit, |users|)];
    PresentFacts(m, slice);
    if Present(m, slice) != [] {
      LaterThanSlice(users, start, EndOf(start, limit, |users|), Present(m, slice)[|Present(m, slice)| - 1].0);
    }
  }

  lemma LaterThanSlice(users: seq<Address>, start: nat, end: nat, u: Address)
    requires start <= end <= |users| && StrictlyUp(users) && u in users[start..end]
    ensures Above(users, Some(u), 0) > start
  {
    var j :| 0 <= j < end - start && users[start..end][j] == u;
    AboveIs(users, start + j, 0);
  }

  /** Reading pages until one comes without a cursor. */
  ghost function Walk<T>(m: map<Address, T>, users: seq<Address>, start: nat, limit: nat): seq<(Address, T)>
    requires start <= |users| && StrictlyUp(users)
    decreases |users| - start
  {
    var page := CursorPage(m, users, start, limit);
    NextIsLater(m, users, start, limit);
    if page.1.None? then page.0 else page.0 + Walk(m, users, Above(users, page.1, 0), limit)
  }

  /** When every user has an entry, a page is full and its cursor leads to the next user. */
  lemma FullPage<T>(m: map<Address, T>, users: seq<Address>, start: nat, limit: nat)
    requires start < |users| && limit >= 1 && StrictlyUp(users) && forall u :: u in users ==> u in m
    ensures var end := EndOf(start, limit, |users|);
            && CursorPage(m, users, start, limit) == (Present(m, users[start..end]), Some(users[end - 1]))
            && Above(users, Some(users[end - 1]), 0) == end > start
  {
    var end := EndOf(start, limit, |users|);
    PresentFacts(m, users[start..end]);
    AboveIs(users, end - 1, 0);
  }

  /** When every user has an entry, following the cursor visits every entry from there on
      exactly once in address order. */
  lemma {:induction false} WalkVisitsAll<T>(m: map<Address, T>, users: seq<Address>, start: nat, limit: nat)
    requires start <= |users| && limit >= 1 && StrictlyUp(users) && forall u :: u in users ==> u in m
    ensures Walk(m, users, start, limit) == Present(m, users[start..])
    decreases |users| - start
  {
    if start < |users| {
      var end := EndOf(start, limit, |users|);
      FullPage(m, users, start, limit);
      WalkVisitsAll(m, users, end, limit);
      PresentSplit(m, users, start, end);
    } else {
      assert users[start..] == [] == users[start..EndOf(start, limit, |users|)];
    }
  }

  lemma PresentSplit<T>(m: map<Address, T>, users: seq<Address>, start: nat, end: nat)
    requires start <= end <= |users|
    ensures Present(m, users[start..end]) + Present(m, users[end..]) == Present(m, users[start..])
  {
    PresentConcat(m, users[start..end], users[end..]);
    assert users[start..] == users[start..end] + users[end..];
  }

  // ----- what a walk leaves out -----

  /** None of the users at positions `a` to `b` has an entry. */
  ghost predicate Absent<T>(m: map<Address, T>, users: seq<Address>, a: nat, b: nat) {
    forall i :: a <= i < b && i < |users| ==> users[i] !in m
  }

  /** From `start` on, a stretch as long as a page without any entry has nothing after it. */
  ghost predicate GapsAreFinal<T>(m: map<Address, T>, users: seq<Address>, start: nat, limit: nat) {
    forall i: nat :: start <= i && Absent(m, users, i, i + limit) ==> Absent(m, users, i, |users|)
  }

  /** A page on which nobody has an entry comes without a cursor, so a reader stops there
      whatever follows. This is how a page of unrevealed commitments ends the listing. */
  lemma WalkStopsAtAGap<T>(m: map<Address, T>, users: seq<Address>, start: nat, limit: nat)
    requires start <= |users| && StrictlyUp(users) && Absent(m, users, start, start + limit)
    ensures Walk(m, users, start, limit) == []
  {
    PresentFacts(m, users[start..EndOf(start, limit, |users|)]);
  }

  lemma {:induction false} PresentIsEmpty<T>(m: map<Address, T>, users: seq<Address>, start: nat)
    requires start <= |users|
    ensures Present(m, users[start..]) == [] <==> Absent(m, users, start, |users|)
    decreases |users| - start
  {
    if start < |users| {
      PresentIsEmpty(m, users, start + 1);
      PresentSplit(m, users, start, start + 1);
      assert users[start..start + 1] == [users[start]];
    }
  }

  /** The last entry on a page: what the page lists ends there, and its cursor is that user. */
  lemma {:induction false} LastOnPage<T>(m: map<Address, T>, users: seq<Address>, start: nat, end: nat) returns (j: nat)
    requires start <= end <= |users| && !Absent(m, users, start, end)
    ensures start <= j < end && users[j] in m
    ensures var items := Present(m, users[start..end]);
            items == Present(m, users[start..j + 1]) && items != [] && items[|items| - 1].0 == users[j]
    decreases end
  {
    assert users[start..end][..end - start - 1] == users[start..end - 1];
    if users[end - 1] in m {
      return end - 1;
    }
    j := LastOnPage(m, users, start, end - 1);
  }

  /** Following the cursor lists every entry exactly when no stretch as long as a page is
      without entries and followed by one. */
  lemma {:induction false} WalkIsCompleteIff<T>(m: map<Address, T>, users: seq<Address>, start: nat, limit: nat)
    requires start <= |users| && limit >= 1 && StrictlyUp(users)
    ensures Walk(m, users, start, limit) == Present(m, users[start..]) <==> GapsAreFinal(m, users, start, limit)
    decreases |users| - start
  {
    if Absent(m, users, start, start + limit) {
      StoppedIff(m, users, start, limit);
    } else {
      var j := WalkGoesOn(m, users, start, limit);
      WalkIsCompleteIff(m, users, j + 1, limit);
      GoesOnIff(m, users, start, j, limit, Walk(m, users, j + 1, limit));
    }
  }

  lemma StoppedIff<T>(m: map<Address, T>, users: seq<Address>, start: nat, limit: nat)
    requires start <= |users| && limit >= 1 && StrictlyUp(users) && Absent(m, users, start, start + limit)
    ensures Walk(m, users, start, limit) == Present(m, users[start..]) <==> GapsAreFinal(m, users, start, limit)
  {
    WalkStopsAtAGap(m, users, start, limit);
    PresentIsEmpty(m, users, start);
  }

  lemma GoesOnIff<T>(m: map<Address, T>, users: seq<Address>, start: nat, j: nat, limit: nat, rest: seq<(Address, T)>)
    requires start <= j < |users| && j < start + limit && users[j] in m
    requires rest == Present(m, users[j + 1..]) <==> GapsAreFinal(m, users, j + 1, limit)
    ensures Present(m, users[start..j + 1]) + rest == Present(m, users[start..]) <==> GapsAreFinal(m, users, start, limit)
  {
    PresentSplit(m, users, start, j + 1);
    SameFront(Present(m, users[start..j + 1]), rest, Present(m, users[j + 1..]));
    GapsBegin(m, users, start, j, limit);
  }

  lemma SameFront<T>(front: seq<T>, a: seq<T>, b: seq<T>)
    ensures front + a == front + b <==> a == b
  {
    if front + a == front + b {
      assert a == (front + a)[|front|..] == (front + b)[|front|..] == b;
    }
  }

  /** A page with an entry lists everything up to its last entry, and the walk goes on there. */
  lemma WalkGoesOn<T>(m: map<Address, T>, users: seq<Address>, start: nat, limit: nat) returns (j: nat)
    requires start <= |users| && StrictlyUp(users) && !Absent(m, users, start, start + limit)
    ensures start <= j < |users| && j < start + limit && users[j] in m
    ensures Walk(m, users, start, limit) == Present(m, users[start..j + 1]) + Walk(m, users, j + 1, limit)
  {
    j := LastOnPage(m, users, start, EndOf(start, limit, |users|));
    AboveIs(users, j, 0);
  }

  /** A window that starts at or before `j`, within a page of it, contains `j`. */
  lemma GapsBegin<T>(m: map<Address, T>, users: seq<Address>, start: nat, j: nat, limit: nat)
    requires start <= j < |users| && j < start + limit && users[j] in m
    ensures GapsAreFinal(m, users, start, limit) <==> GapsAreFinal(m, users, j + 1, limit)
  {
    if GapsAreFinal(m, users, j + 1, limit) {
      forall i: nat | start <= i && Absent(m, users, i, i + limit) ensures Absent(m, users, i, |users|) {
        assert i > j;
      }
    }
  }

  // ----- the queries -----

  /** What a round's participants have in one of the stake maps, by address. */
  function EntriesOf<T>(entries: map<Key, T>, round: nat, users: seq<Address>): map<Address, T> {
    map u | u in users && Key(round, u) in entries :: entries[Key(round, u)]
  }

  /** `_find_cursor_position` */
  method FindCursorPosition(users: seq<Address>, cursor: Option<Address>) returns (start: nat)
    ensures start == Above(users, cursor, 0)
  {
    if cursor.None? {
      return 0;
    }
    for i := 0 to |users|
      invariant Above(users, cursor, 0) == Above(users, cursor, i)
    {
      if users[i] > cursor.value {
        return i;
      }
    }
    return |users|;
  }

  /** `get_updown_positions_cursor` */
  method PositionsPage(m: Market, cursor: Option<Address>, limit: nat)
    returns (r: Result<(seq<(Address, UserPosition)>, Option<Address>)>)
    ensures limit == 0 || limit > MAX_PAGE_SIZE ==> r == Err(PageSizeExceeded)
    ensures 1 <= limit <= MAX_PAGE_SIZE && m.active.None? ==> r == Ok(([], None))
    ensures 1 <= limit <= MAX_PAGE_SIZE && m.active.Some? ==>
              var users := Sort(m.Participants(m.active.value.id));
              r == Ok(CursorPage(EntriesOf(m.positions, m.active.value.id, users), users, Above(users, cursor, 0), limit))
  {
    if !(1 <= limit <= MAX_PAGE_SIZE) {
      return Err(PageSizeExceeded);
    }
    if m.active.None? {
      return Ok(([], None));
    }
    var round := m.active.value.id;
    var users := Sort(m.Participants(round));
    var start := FindCursorPosition(users, cursor);
    var page := PageItems(m.positions, round, users, start, EndOf(start, limit, |users|));
    return Ok(page);
  }

  /** `get_precision_predictions_cursor` */
  method PredictionsPage(m: Market, cursor: Option<Address>, limit: nat)
    returns (r: Result<(seq<(Address, PrecisionPrediction)>, Option<Address>)>)
    ensures limit == 0 || limit > MAX_PAGE_SIZE ==> r == Err(PageSizeExceeded)
    ensures 1 <= limit <= MAX_PAGE_SIZE && m.active.None? ==> r == Ok(([], None))
    ensures 1 <= limit <= MAX_PAGE_SIZE && m.active.Some? ==>
              var users := Sort(m.Participants(m.active.value.id));
              r == Ok(CursorPage(EntriesOf(m.predictions, m.active.value.id, users), users, Above(users, cursor, 0), limit))
  {
    if !(1 <= limit <= MAX_PAGE_SIZE) {
      return Err(PageSizeExceeded);
    }
    if m.active.None? {
      return Ok(([], None));
    }
    var round := m.active.value.id;
    var users := Sort(m.Participants(round));
    var start := FindCursorPosition(users, cursor);
    var page := PageItems(m.predictions, round, users, start, EndOf(start, limit, |users|));
    return Ok(page);
  }

  /** The loop of both queries: users without an entry are passed over. */
  method PageItems<T>(entries: map<Key, T>, round: nat, users: seq<Address>, start: nat, end: nat)
    returns (page: (seq<(Address, T)>, Option<Address>))
    requires start <= end <= |users|
    ensures page.0 == Present(EntriesOf(entries, round, users), users[start..end])
    ensures page.1 == if page.0 == [] then None else Some(page.0[|page.0| - 1].0)
  {
    ghost var all := EntriesOf(entries, round, users);
    ghost var slice := users[start..end];
    var items: seq<(Address, T)> := [];
    var last: Option<Address> := None;
    for i := start to end
      invariant items == Present(all, slice[..i - start])
      invariant last == if items == [] then None else Some(items[|items| - 1].0)
    {
      assert slice[..i - start + 1][..i - start] == slice[..i - start];
      assert users[i] in users;
      var k := Key(round, users[i]);
      if k in entries {
        last := Some(users[i]);
        items := items + [(users[i], entries[k])];
      }
    }
    assert slice[..end - start] == slice;
    return (items, last);
  }

  // ----- Up/Down rounds: every position is listed -----

  /** Following `get_updown_positions_cursor` from the start of an Up/Down round lists every
      participant's position exactly once, by ascending address. */
  lemma PositionsAreAllListed(s: State, rd: Round, limit: nat)
    requires Inv(s) && s.active == Some(rd) && rd.mode.UpDown? && limit >= 1
    ensures var users := Sort(ParticipantsOf(s, rd.id));
            && StrictlyUp(users)
            && AllListed(s.book.positions, rd.id, users, Walk(EntriesOf(s.book.positions, rd.id, users), users, 0, limit))
  {
    SortedParticipants(s, rd.id);
    var users := Sort(ParticipantsOf(s, rd.id));
    forall u | u in users ensures Key(rd.id, u) in s.book.positions { assert InBook(s.book, Key(rd.id, u)); }
    WalkListsAll(s.book.positions, rd.id, users, limit);
  }

  lemma SortedParticipants(s: State, round: nat)
    requires ListsOk(s.book, s.participants, s.lastRoundId)
    ensures var users := Sort(ParticipantsOf(s, round)); StrictlyUp(users) && Members(s.book, round, users)
  {
    ParticipantsAre(s, round);
    MembersSorted(s.book, round, ParticipantsOf(s, round));
    SortKeepsMembers(ParticipantsOf(s, round));
  }

  ghost predicate AllListed(positions: map<Key, UserPosition>, round: nat, users: seq<Address>, listed: seq<(Address, UserPosition)>) {
    && |listed| == |users|
    && forall i :: 0 <= i < |users| ==>
         && listed[i].0 == users[i] && Key(round, users[i]) in positions
         && listed[i].1 == positions[Key(round, users[i])]
  }

  lemma WalkListsAll(positions: map<Key, UserPosition>, round: nat, users: seq<Address>, limit: nat)
    requires StrictlyUp(users) && limit >= 1 && forall u :: u in users ==> Key(round, u) in positions
    ensures AllListed(positions, round, users, Walk(EntriesOf(positions, round, users), users, 0, limit))
  {
    WalkVisitsAll(EntriesOf(positions, round, users), users, 0, limit);
    assert users[0..] == users;
    PresentFacts(EntriesOf(positions, round, users), users);
  }

  // ----- Precision rounds: unrevealed commitments may hide predictions -----

  ghost predicate IsEntry<T>(m: map<Address, T>, users: seq<Address>, item: (Address, T)) {
    item.0 in users && item.0 in m && item.1 == m[item.0]
  }

  /** What is listed are entries of the users, one per user and in the order of the users. */
  lemma {:induction false} PresentIs<T>(m: map<Address, T>, users: seq<Address>)
    requires StrictlyUp(users)
    ensures forall item :: item in Present(m, users) ==> IsEntry(m, users, item)
    ensures forall i, j :: 0 <= i < j < |Present(m, users)| ==> Present(m, users)[i].0 < Present(m, users)[j].0
    ensures forall u :: u in users && u in m ==> (u, m[u]) in Present(m, users)
  {
    if users != [] {
      var n := |users| - 1;
      var items, front := Present(m, users), Present(m, users[..n]);
      PresentIs(m, users[..n]);
      forall item | item in items ensures IsEntry(m, users, item) {
        if item in front { assert IsEntry(m, users[..n], item); }
      }
      forall i | 0 <= i < |front| ensures front[i].0 < users[n] {
        assert IsEntry(m, users[..n], front[i]);
      }
      forall u | u in users && u in m ensures (u, m[u]) in items {
        if u != users[n] { assert u in users[..n]; }
      }
    }
  }

  /** However many pages are read, what they list is the beginning of the whole listing. */
  lemma {:induction false} WalkIsPrefix<T>(m: map<Address, T>, users: seq<Address>, start: nat, limit: nat)
    requires start <= |users| && StrictlyUp(users)
    ensures Walk(m, users, start, limit) <= Present(m, users[start..])
    decreases |users| - start
  {
    if Absent(m, users, start, start + limit) {
      WalkStopsAtAGap(m, users, start, limit);
    } else {
      var j := WalkGoesOn(m, users, start, limit);
      WalkIsPrefix(m, users, j + 1, limit);
      PrefixGoesOn(m, users, start, j + 1, Walk(m, users, j + 1, limit));
    }
  }

  lemma PrefixGoesOn<T>(m: map<Address, T>, users: seq<Address>, start: nat, next: nat, rest: seq<(Address, T)>)
    requires start <= next <= |users| && rest <= Present(m, users[next..])
    ensures Present(m, users[start..next]) + rest <= Present(m, users[start..])
  {
    PresentSplit(m, users, start, next);
  }

  ghost predicate ListsEach<T>(entries: map<Key, T>, round: nat, listed: seq<(Address, T)>) {
    forall u: Address :: Key(round, u) in entries ==> (u, entries[Key(round, u)]) in listed
  }

  /** A beginning of the listing names every entry only if it is the whole listing. */
  lemma PrefixListsEach<T>(entries: map<Key, T>, round: nat, users: seq<Address>, listed: seq<(Address, T)>)
    requires StrictlyUp(users) && forall u :: Key(round, u) in entries ==> u in users
    requires listed <= Present(EntriesOf(entries, round, users), users)
    ensures ListsEach(entries, round, listed) <==> listed == Present(EntriesOf(entries, round, users), users)
  {
    var all := Present(EntriesOf(entries, round, users), users);
    PresentIs(EntriesOf(entries, round, users), users);
    if listed != all {
      var x := all[|listed|];
      assert IsEntry(EntriesOf(entries, round, users), users, x);
      assert x !in listed;
    }
  }

  /** A stake behind a commitment that has not been revealed. */
  predicate Hidden(b: Book, k: Key) {
    k in b.commitments && !b.commitments[k].revealed
  }

  ghost predicate AllHidden(b: Book, round: nat, users: seq<Address>, first: nat, end: nat) {
    forall i :: first <= i < end && i < |users| ==> Hidden(b, Key(round, users[i]))
  }

  /** No page-long stretch of participants with unrevealed commitments, in address order, is
      followed by a participant whose prediction is open. */
  ghost predicate NothingBehindCommitments(b: Book, round: nat, users: seq<Address>, limit: nat) {
    forall i: nat :: AllHidden(b, round, users, i, i + limit) ==> AllHidden(b, round, users, i, |users|)
  }

  lemma HiddenIsAbsent(b: Book, round: nat, users: seq<Address>, limit: nat)
    requires StakesOk(b) && Members(b, round, users) && forall u :: u in users ==> Key(round, u) !in b.positions
    ensures NothingBehindCommitments(b, round, users, limit) <==> GapsAreFinal(EntriesOf(b.predictions, round, users), users, 0, limit)
  {
    var m := EntriesOf(b.predictions, round, users);
    forall i | 0 <= i < |users| ensures Hidden(b, Key(round, users[i])) <==> users[i] !in m {
      assert users[i] in users && InBook(b, Key(round, users[i]));
    }
    forall i: nat, e: nat ensures AllHidden(b, round, users, i, e) <==> Absent(m, users, i, e) { }
  }

  /** Following `get_precision_predictions_cursor` from the start of an active Precision round
      lists predictions by ascending address, and lists all of them exactly when no page-long
      stretch of unrevealed commitments comes before an open prediction. */
  lemma PredictionsListedIff(s: State, rd: Round, limit: nat)
    requires Inv(s) && s.active == Some(rd) && rd.mode.Precision? && limit >= 1
    ensures var users := Sort(ParticipantsOf(s, rd.id));
            var open := EntriesOf(s.book.predictions, rd.id, users);
            && StrictlyUp(users)
            && Walk(open, users, 0, limit) <= Present(open, users)
            && (ListsEach(s.book.predictions, rd.id, Walk(open, users, 0, limit))
                <==> NothingBehindCommitments(s.book, rd.id, users, limit))
  {
    SortedParticipants(s, rd.id);
    var users := Sort(ParticipantsOf(s, rd.id));
    var open := EntriesOf(s.book.predictions, rd.id, users);
    forall u ensures (u in users ==> Key(rd.id, u) !in s.book.positions) && (Key(rd.id, u) in s.book.predictions ==> u in users) {
      assert u in users ==> InBook(s.book, Key(rd.id, u));
      assert Key(rd.id, u) in s.book.predictions ==> InBook(s.book, Key(rd.id, u));
    }
    assert users[0..] == users;
    WalkIsPrefix(open, users, 0, limit);
    WalkIsCompleteIff(open, users, 0, limit);
    PrefixListsEach(s.book.predictions, rd.id, users, Walk(open, users, 0, limit));
    HiddenIsAbsent(s.book, rd.id, users, limit);
  }
}
