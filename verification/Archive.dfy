/** Archived rounds with bounded retention, and the pages through which they are read
    (contracts/src/settlement.rs, contracts/src/queries.rs). */
module Archive {
  import opened Types
  import opened Sums

  // ----- filing a round -----

  datatype Summary = Summary(round: nat, status: ArchiveStatus, final: nat, participants: nat, settledAt: nat)

  /** Archive entries, the list of recently archived ids, and each user's own list. */
  datatype Store = Store(entries: map<nat, Summary>, recent: seq<nat>, history: map<Address, seq<nat>>)

  function HistoryOf(history: map<Address, seq<nat>>, user: Address): seq<nat> {
    if user in history then history[user] else []
  }

  function AddHistory(history: map<Address, seq<nat>>, users: seq<Address>, id: nat): map<Address, seq<nat>> {
    if users == [] then history
    else
      var front := AddHistory(history, users[..|users| - 1], id);
      var u := users[|users| - 1];
      front[u := HistoryOf(front, u) + [id]]
  }

  /** Each round of pruning deletes the entry of the oldest id and takes two ids off the list. */
  function Prune(entries: map<nat, Summary>, recent: seq<nat>, limit: nat): (map<nat, Summary>, seq<nat>)
    decreases |recent|
  {
    if |recent| <= limit then (entries, recent)
    else Prune(entries - {recent[0]}, if |recent| == 1 then [] else recent[2..], limit)
  }

  /** `_archive_round` */
  function File(s: Store, summary: Summary, users: seq<Address>, limit: nat): Store {
    var pruned := Prune(s.entries[summary.round := summary], s.recent + [summary.round], limit);
    Store(pruned.0, pruned.1, AddHistory(s.history, users, summary.round))
  }

  /** The list has no repetitions and every listed round has an entry. */
  ghost predicate Listed(entries: map<nat, Summary>, recent: seq<nat>) {
    Distinct(recent) && forall i :: 0 <= i < |recent| ==> recent[i] in entries
  }

  lemma {:induction false} PruneKeepsListed(entries: map<nat, Summary>, recent: seq<nat>, limit: nat)
    requires Listed(entries, recent)
    ensures var r := Prune(entries, recent, limit);
            && Listed(r.0, r.1) && |r.1| <= limit
            && (forall id :: id in r.1 ==> id in recent)
            && (forall id :: id in r.0 ==> id in entries && r.0[id] == entries[id])
            && (forall id :: id in entries && id !in recent ==> id in r.0)
    decreases |recent|
  {
    if |recent| > limit {
      var rest := if |recent| == 1 then [] else recent[2..];
      PruneKeepsListed(entries - {recent[0]}, rest, limit);
    }
  }

  /** Filing keeps every listed round readable and the list within the limit. */
  lemma FilingKeepsListed(s: Store, summary: Summary, users: seq<Address>, limit: nat)
    requires Listed(s.entries, s.recent) && summary.round !in s.entries
    ensures var t := File(s, summary, users, limit);
            Listed(t.entries, t.recent) && |t.recent| <= limit
  {
    PruneKeepsListed(s.entries[summary.round := summary], s.recent + [summary.round], limit);
  }

  /** Nothing is kept that is not listed. */
  ghost predicate Complete(s: Store) {
    forall id :: id in s.entries ==> id in s.recent
  }

  /** The list and the archive hold the same rounds after filing exactly when nothing had to
      be pruned: a prune takes a second id off the list and leaves its entry behind. */
  lemma CompleteUnlessPruned(s: Store, summary: Summary, users: seq<Address>, limit: nat)
    requires Listed(s.entries, s.recent) && Complete(s) && summary.round !in s.entries && limit >= 1
    ensures Complete(File(s, summary, users, limit)) <==> |s.recent| + 1 <= limit
  {
    var entries, recent := s.entries[summary.round := summary], s.recent + [summary.round];
    if |recent| > limit {
      var rest := recent[2..];
      PruneKeepsListed(entries - {recent[0]}, rest, limit);
      assert recent[1] !in rest && recent[1] in entries - {recent[0]};
      assert recent[1] in File(s, summary, users, limit).entries;
    }
  }

  /** Two rounds filed with room for one: the second stays readable but is not listed. */
  lemma PruningForgetsAnEntry()
    ensures var first := Summary(1, Resolved, 100, 0, 10);
            var second := Summary(2, Resolved, 100, 0, 20);
            var t := File(File(Store(map[], [], map[]), first, [], 1), second, [], 1);
            t.recent == [] && 2 in t.entries && 1 !in t.entries
  {
    var first := Summary(1, Resolved, 100, 0, 10);
    var second := Summary(2, Resolved, 100, 0, 20);
    var s := File(Store(map[], [], map[]), first, [], 1);
    assert s.recent == [1] && s.entries == map[1 := first];
    var recent := s.recent + [2];
    assert Prune(s.entries[2 := second], recent, 1) == Prune(s.entries[2 := second] - {1}, recent[2..], 1);
  }

  datatype Filing = Filing(summary: Summary, users: seq<Address>, limit: nat)

  function FileAll(s: Store, fs: seq<Filing>): Store {
    if fs == [] then s
    else
      var f := fs[|fs| - 1];
      File(FileAll(s, fs[..|fs| - 1]), f.summary, f.users, f.limit)
  }

  /** An entry that has dropped off the list is never deleted: pruning only looks at the list. */
  lemma {:induction false} ForgottenStays(s: Store, fs: seq<Filing>, id: nat)
    requires Listed(s.entries, s.recent) && id in s.entries && id !in s.recent
    requires forall i :: 0 <= i < |fs| ==> fs[i].summary.round !in s.entries
    requires forall i, j :: 0 <= i < j < |fs| ==> fs[i].summary.round != fs[j].summary.round
    ensures var t := FileAll(s, fs);
            && Listed(t.entries, t.recent)
            && id in t.entries && id !in t.recent && t.entries[id] == s.entries[id]
            && forall k :: k in t.entries ==> k in s.entries || exists i :: 0 <= i < |fs| && fs[i].summary.round == k
  {
    if fs != [] {
      var n := |fs| - 1;
      ForgottenStays(s, fs[..n], id);
      var mid, f := FileAll(s, fs[..n]), fs[n];
      var entries, recent := mid.entries[f.summary.round := f.summary], mid.recent + [f.summary.round];
      assert f.summary.round !in mid.entries;
      PruneKeepsListed(entries, recent, f.limit);
      forall k | k in FileAll(s, fs).entries && k !in s.entries
        ensures exists i :: 0 <= i < |fs| && fs[i].summary.round == k
      {
        if k in mid.entries { var i :| 0 <= i < n && fs[..n][i].summary.round == k; assert fs[i].summary.round == k; }
      }
    }
  }

  // ----- reading a user's history -----

  const MAX_PAGE_SIZE: nat := 100

  function Newest(ids: seq<nat>): seq<nat> {
    seq(|ids|, i requires 0 <= i < |ids| => ids[|ids| - 1 - i])
  }

  /** The summaries of the rounds that are still archived. */
  function Retained(entries: map<nat, Summary>, ids: seq<nat>): seq<Summary> {
    if ids == [] then []
    else
      var last := ids[|ids| - 1];
      Retained(entries, ids[..|ids| - 1]) + if last in entries then [entries[last]] else []
  }

  lemma RetainedNext(entries: map<nat, Summary>, ids: seq<nat>, n: nat)
    requires n < |ids|
    ensures ids[n] in entries ==> Retained(entries, ids[..n + 1]) == Retained(entries, ids[..n]) + [entries[ids[n]]]
    ensures ids[n] !in entries ==> Retained(entries, ids[..n + 1]) == Retained(entries, ids[..n])
  {
    assert ids[..n + 1][..n] == ids[..n];
  }

  function EndOf(offset: nat, limit: nat, total: nat): nat {
    if offset + limit < total then offset + limit else total
  }

  /** Page `offset`, `limit` of a history: that stretch of it, newest first. */
  function HistoryPage(entries: map<nat, Summary>, ids: seq<nat>, offset: nat, limit: nat): seq<Summary> {
    if offset >= |ids| then [] else Retained(entries, Newest(ids)[offset..EndOf(offset, limit, |ids|)])
  }

  /** The pages at offsets `offset`, `offset + size`, ... up to the end of the history. */
  function HistoryPages(entries: map<nat, Summary>, ids: seq<nat>, size: nat, offset: nat): seq<Summary>
    requires size > 0
    decreases |ids| - offset
  {
    if offset >= |ids| then []
    else HistoryPage(entries, ids, offset, size) + HistoryPages(entries, ids, size, offset + size)
  }

  lemma {:induction false} RetainedConcat(entries: map<nat, Summary>, a: seq<nat>, b: seq<nat>)
    ensures Retained(entries, a + b) == Retained(entries, a) + Retained(entries, b)
  {
    if b == [] {
      assert a + b == a;
    } else {
      RetainedConcat(entries, a, b[..|b| - 1]);
      assert (a + b)[..|a + b| - 1] == a + b[..|b| - 1];
    }
  }

  lemma {:induction false} PagesFrom(entries: map<nat, Summary>, ids: seq<nat>, size: nat, offset: nat)
    requires size > 0 && offset <= |ids|
    ensures HistoryPages(entries, ids, size, offset) == Retained(entries, Newest(ids)[offset..])
    decreases |ids| - offset
  {
    if offset < |ids| {
      PagesFrom(entries, ids, size, EndOf(offset, size, |ids|));
      PageThenRest(entries, Newest(ids), offset, EndOf(offset, size, |ids|));
    }
  }

  lemma PageThenRest(entries: map<nat, Summary>, all: seq<nat>, from: nat, to: nat)
    requires from <= to <= |all|
    ensures Retained(entries, all[from..to]) + Retained(entries, all[to..]) == Retained(entries, all[from..])
  {
    RetainedConcat(entries, all[from..to], all[to..]);
    assert all[from..] == all[from..to] + all[to..];
  }

  /** Pages at offsets 0, size, 2 size, ... laid end to end are the whole history, newest
      first, with the rounds no longer archived left out. */
  lemma HistoryPagesTile(entries: map<nat, Summary>, ids: seq<nat>, size: nat)
    requires size > 0
    ensures HistoryPages(entries, ids, size, 0) == Retained(entries, Newest(ids))
  {
    PagesFrom(entries, ids, size, 0);
    assert Newest(ids)[0..] == Newest(ids);
  }

  // ----- the storage and its loops -----

  class Archives {
    var entries: map<nat, Summary>
    var recent: seq<nat>
    var history: map<Address, seq<nat>>

    ghost function View(): Store
      reads this
    {
      Store(entries, recent, history)
    }

    constructor ()
      ensures View() == Store(map[], [], map[])
    {
      entries, recent, history := map[], [], map[];
    }

    /** `_archive_round` */
    method ArchiveRound(summary: Summary, users: seq<Address>, limit: nat)
      modifies this
      ensures View() == File(old(View()), summary, users, limit)
    {
      for i := 0 to |users|
        invariant history == AddHistory(old(history), users[..i], summary.round)
        invariant entries == old(entries) && recent == old(recent)
      {
        assert users[..i + 1][..i] == users[..i];
        history := history[users[i] := HistoryOf(history, users[i]) + [summary.round]];
      }
      assert users[..|users|] == users;
      entries := entries[summary.round := summary];
      recent := recent + [summary.round];
      PruneEntries(limit);
    }

    /** The retention loop. Taking an id off an empty list does nothing. */
    method PruneEntries(limit: nat)
      modifies this`entries, this`recent
      ensures (entries, recent) == Prune(old(entries), old(recent), limit)
    {
      while |recent| > limit
        invariant Prune(entries, recent, limit) == Prune(old(entries), old(recent), limit)
        decreases |recent|
      {
        entries := entries - {recent[0]};
        recent := recent[1..];
        if recent != [] {
          recent := recent[1..];
        }
      }
    }

    /** `get_user_archive_history`: walks the user's list from the newest end. */
    method UserHistory(user: Address, offset: nat, limit: nat) returns (r: Result<seq<Summary>>)
      ensures r == if limit == 0 || limit > MAX_PAGE_SIZE then Err(PageSizeExceeded)
                   else Ok(HistoryPage(entries, HistoryOf(history, user), offset, limit))
    {
      if !(1 <= limit <= MAX_PAGE_SIZE) {
        return Err(PageSizeExceeded);
      }
      var ids := HistoryOf(history, user);
      if offset >= |ids| {
        return Ok([]);
      }
      ghost var stretch := Newest(ids)[offset..EndOf(offset, limit, |ids|)];
      var start := |ids| - 1 - offset;
      var end := if start >= limit - 1 then start - (limit - 1) else 0;
      var result: seq<Summary> := [];
      var idx := start;
      assert start - end + 1 <= limit && |stretch| == start - end + 1;
      while true
        invariant end <= idx <= start
        invariant result == Retained(entries, stretch[..start - idx]) && |result| <= start - idx
        decreases idx
      {
        RetainedNext(entries, stretch, start - idx);
        assert stretch[start - idx] == ids[idx];
        if ids[idx] in entries {
          result := result + [entries[ids[idx]]];
        }
        if idx == end || |result| == limit {
          break;
        }
        idx := idx - 1;
      }
      assert idx == end;
      assert stretch[..start - idx + 1] == stretch;
      return Ok(result);
    }
  }
}
