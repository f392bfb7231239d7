/**
 * `GET /api/leaderboard`: the users sorted by xp, highest first, cut to the
 * limit, each projected to id, username, xp, level and badges. Mongo leaves
 * the order of equal xp open; the model keeps such users in insertion order.
 */
module Leaderboard {
  import opened Server

  datatype Entry = Entry(id: string, username: string, xp: int, level: int, badges: seq<string>)

  /** The projection `{'id': 1, 'username': 1, 'xp': 1, 'level': 1, 'badges': 1}`. */
  function EntryOf(u: User): Entry {
    Entry(u.id, u.username, u.xp, u.level, u.badges)
  }

  predicate SortedByXp(s: seq<User>) {
    forall i, j | 0 <= i < j < |s| :: s[i].xp >= s[j].xp
  }

  /** `u` placed after the leading users with at least its xp. */
  function InsertByXp(sorted: seq<User>, u: User): (r: seq<User>)
    ensures |r| == |sorted| + 1
    ensures r[0] == u || (sorted != [] && r[0] == sorted[0])
  {
    if sorted == [] then [u]
    else if sorted[0].xp >= u.xp then [sorted[0]] + InsertByXp(sorted[1..], u)
    else [u] + sorted
  }

  lemma {:induction false} InsertKeepsSorted(sorted: seq<User>, u: User)
    requires SortedByXp(sorted)
    ensures SortedByXp(InsertByXp(sorted, u))
  {
    if sorted != [] && sorted[0].xp >= u.xp {
      InsertKeepsSorted(sorted[1..], u);
      var rest := InsertByXp(sorted[1..], u);
      assert sorted[0].xp >= rest[0].xp;
    }
  }

  lemma {:induction false} InsertAddsOne(sorted: seq<User>, u: User)
    ensures multiset(InsertByXp(sorted, u)) == multiset(sorted) + multiset{u}
  {
    if sorted != [] && sorted[0].xp >= u.xp {
      InsertAddsOne(sorted[1..], u);
      assert sorted == [sorted[0]] + sorted[1..];
    }
  }

  /** `.sort('xp', -1)`, by insertion: later users go after earlier ones of equal xp. */
  function SortByXp(users: seq<User>): (r: seq<User>)
    ensures SortedByXp(r)
    ensures multiset(r) == multiset(users)
    ensures |r| == |users|
  {
    if users == [] then []
    else
      var init, last := users[..|users| - 1], users[|users| - 1];
      assert users == init + [last];
      var sortedInit := SortByXp(init);
      InsertKeepsSorted(sortedInit, last);
      InsertAddsOne(sortedInit, last);
      InsertByXp(sortedInit, last)
  }

  function Project(users: seq<User>): (r: seq<Entry>)
    ensures |r| == |users|
    ensures forall k | 0 <= k < |r| :: r[k] == EntryOf(users[k])
  {
    if users == [] then [] else [EntryOf(users[0])] + Project(users[1..])
  }

  /** The leaderboard for a positive `limit`. */
  function Board(users: seq<User>, limit: nat): seq<Entry>
    requires limit > 0
  {
    var sorted := SortByXp(users);
    Project(sorted[..if limit < |sorted| then limit else |sorted|])
  }

  /** The board has `min(limit, |users|)` entries, in non-increasing xp. */
  lemma BoardIsSorted(users: seq<User>, limit: nat)
    requires limit > 0
    ensures var b := Board(users, limit);
      && |b| == (if limit < |users| then limit else |users|)
      && forall i, j | 0 <= i < j < |b| :: b[i].xp >= b[j].xp
  {
    var sorted := SortByXp(users);
    var n := if limit < |sorted| then limit else |sorted|;
    assert forall k | 0 <= k < n :: Board(users, limit)[k].xp == sorted[k].xp;
  }

  /** Every entry is the projection of a stored user. */
  lemma BoardEntriesAreUsers(users: seq<User>, limit: nat)
    requires limit > 0
    ensures var b := Board(users, limit);
      forall k | 0 <= k < |b| :: exists u | u in users :: b[k] == EntryOf(u)
  {
    var sorted := SortByXp(users);
    var b := Board(users, limit);
    forall k | 0 <= k < |b| ensures exists u | u in users :: b[k] == EntryOf(u) {
      assert b[k] == EntryOf(sorted[k]);
      assert sorted[k] in multiset(users);
    }
  }

  /** In a sorted list, a user outside the first `n` has no more xp than any of them. */
  lemma OutsideThePrefix(sorted: seq<User>, n: nat, u: User)
    requires SortedByXp(sorted) && n <= |sorted| && u in sorted
    ensures EntryOf(u) in Project(sorted[..n]) || forall k | 0 <= k < n :: u.xp <= sorted[k].xp
  {
    var j :| 0 <= j < |sorted| && sorted[j] == u;
    if j < n {
      assert Project(sorted[..n])[j] == EntryOf(u);
    }
  }

  /** A user left off the board has no more xp than anyone on it. */
  lemma BoardKeepsTheTop(users: seq<User>, limit: nat)
    requires limit > 0
    ensures var b := Board(users, limit);
      forall u | u in users :: EntryOf(u) in b || forall k | 0 <= k < |b| :: u.xp <= b[k].xp
  {
    var sorted := SortByXp(users);
    var n := if limit < |sorted| then limit else |sorted|;
    var b := Board(users, limit);
    assert b == Project(sorted[..n]);
    assert forall k | 0 <= k < |b| :: b[k].xp == sorted[k].xp;
    forall u | u in users ensures EntryOf(u) in b || forall k | 0 <= k < |b| :: u.xp <= b[k].xp {
      assert u in multiset(sorted);
      OutsideThePrefix(sorted, n, u);
    }
  }

  lemma ProjectHas(s: seq<User>, u: User)
    requires u in s
    ensures EntryOf(u) in Project(s)
  {
    var j :| 0 <= j < |s| && s[j] == u;
    assert Project(s)[j] == EntryOf(u);
  }

  /** With room for everyone, the board is every stored user, sorted, and each of them is on it. */
  lemma BoardListsEveryone(users: seq<User>, limit: nat)
    requires limit >= |users| && limit > 0
    ensures Board(users, limit) == Project(SortByXp(users))
    ensures forall u | u in users :: EntryOf(u) in Board(users, limit)
  {
    var sorted := SortByXp(users);
    assert sorted[..|sorted|] == sorted;
    assert Board(users, limit) == Project(sorted);
    forall u | u in users ensures EntryOf(u) in Project(sorted) {
      assert u in multiset(sorted);
      ProjectHas(sorted, u);
    }
  }
}
