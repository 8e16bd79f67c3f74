/**
 * The leaderboard's sort-and-rank step: the fetched score entries are sorted
 * by score, highest first, with a stable sort (Java's List.sort), then row i
 * of the table gets rank i + 1.
 */
module Leaderboard {

  datatype LeaderboardEntry = LeaderboardEntry(username: string, score: int)

  datatype LeaderboardRow = LeaderboardRow(rank: int, name: string, score: int)

  /** Scores never increase from the front of the list to the back. */
  predicate SortedByScore(s: seq<LeaderboardEntry>) {
    forall i, j :: 0 <= i < j < |s| ==> s[i].score >= s[j].score
  }

  /** The entries with score k, in the order they appear in s. */
  function WithScore(s: seq<LeaderboardEntry>, k: int): seq<LeaderboardEntry>
    decreases |s|
  {
    if s == [] then []
    else WithScore(s[..|s| - 1], k) + (if s[|s| - 1].score == k then [s[|s| - 1]] else [])
  }

  /** Puts e after every entry of t whose score is at least e's. */
  function InsertByScore(t: seq<LeaderboardEntry>, e: LeaderboardEntry): (r: seq<LeaderboardEntry>)
    ensures |r| == |t| + 1
    ensures multiset(r) == multiset(t) + multiset{e}
    decreases |t|
  {
    if t == [] then [e]
    else if t[0].score >= e.score then
      assert t == [t[0]] + t[1..];
      [t[0]] + InsertByScore(t[1..], e)
    else [e] + t
  }

  /**
   * Stable sort by descending score, the reference for List.sort with the
   * comparator comparingInt(getScore).reversed(): insertion of each entry
   * in turn behind the entries sorted so far.
   */
  function SortByScore(s: seq<LeaderboardEntry>): (r: seq<LeaderboardEntry>)
    ensures |r| == |s|
    ensures multiset(r) == multiset(s)
    decreases |s|
  {
    if s == [] then []
    else
      assert s == s[..|s| - 1] + [s[|s| - 1]];
      InsertByScore(SortByScore(s[..|s| - 1]), s[|s| - 1])
  }

  lemma {:induction false} WithScoreAppend(s: seq<LeaderboardEntry>, t: seq<LeaderboardEntry>, k: int)
    ensures WithScore(s + t, k) == WithScore(s, k) + WithScore(t, k)
    decreases |t|
  {
    if t == [] {
      assert s + t == s;
    } else {
      var u := t[..|t| - 1];
      assert (s + t)[..|s + t| - 1] == s + u;
      WithScoreAppend(s, u, k);
    }
  }

  lemma {:induction false} InsertByScoreSorted(t: seq<LeaderboardEntry>, e: LeaderboardEntry)
    requires SortedByScore(t)
    ensures SortedByScore(InsertByScore(t, e))
    ensures InsertByScore(t, e) != [] && InsertByScore(t, e)[0] == (if t != [] && t[0].score >= e.score then t[0] else e)
    decreases |t|
  {
    if t != [] && t[0].score >= e.score {
      InsertByScoreSorted(t[1..], e);
    }
  }

  /** Inserting e keeps the order of the entries with each score and puts e last among its equals. */
  lemma {:induction false} InsertByScoreStable(t: seq<LeaderboardEntry>, e: LeaderboardEntry, k: int)
    requires SortedByScore(t)
    ensures WithScore(InsertByScore(t, e), k) == WithScore(t, k) + (if e.score == k then [e] else [])
    decreases |t|
  {
    if t == [] {
      assert WithScore([e], k) == WithScore([], k) + (if e.score == k then [e] else []);
    } else if t[0].score >= e.score {
      InsertByScoreStable(t[1..], e, k);
      WithScoreAppend([t[0]], InsertByScore(t[1..], e), k);
      WithScoreAppend([t[0]], t[1..], k);
      assert [t[0]] + t[1..] == t;
      assert WithScore([t[0]], k) == WithScore([], k) + (if t[0].score == k then [t[0]] else []);
    } else {
      WithScoreAppend([e], t, k);
      assert WithScore([e], k) == WithScore([], k) + (if e.score == k then [e] else []);
      if e.score == k {
        NoneWithHigherScore(t, k);
      }
    }
  }

  /** In a sorted list headed by a score below k, no entry has score k. */
  lemma {:induction false} NoneWithHigherScore(t: seq<LeaderboardEntry>, k: int)
    requires SortedByScore(t) && t != [] && t[0].score < k
    ensures WithScore(t, k) == []
    decreases |t|
  {
    var u := t[..|t| - 1];
    if u != [] {
      NoneWithHigherScore(u, k);
    }
    assert t[|t| - 1].score <= t[0].score;
  }

  /** The result of the sort is ordered by score, highest first. */
  lemma {:induction false} SortByScoreSorted(s: seq<LeaderboardEntry>)
    ensures SortedByScore(SortByScore(s))
    decreases |s|
  {
    if s != [] {
      SortByScoreSorted(s[..|s| - 1]);
      InsertByScoreSorted(SortByScore(s[..|s| - 1]), s[|s| - 1]);
    }
  }

  /** The sort is stable: the entries with each score keep their fetched order. */
  lemma {:induction false} SortByScoreStable(s: seq<LeaderboardEntry>, k: int)
    ensures WithScore(SortByScore(s), k) == WithScore(s, k)
    decreases |s|
  {
    if s != [] {
      var u := s[..|s| - 1];
      SortByScoreStable(u, k);
      SortByScoreSorted(u);
      InsertByScoreStable(SortByScore(u), s[|s| - 1], k);
    }
  }

  /** The entry a row displays. */
  function RowEntry(r: LeaderboardRow): LeaderboardEntry {
    LeaderboardEntry(r.name, r.score)
  }

  function RowEntries(rows: seq<LeaderboardRow>): (s: seq<LeaderboardEntry>)
    decreases |rows|
    ensures |s| == |rows|
    ensures forall i :: 0 <= i < |rows| ==> s[i] == RowEntry(rows[i])
  {
    if rows == [] then [] else [RowEntry(rows[0])] + RowEntries(rows[1..])
  }

  /**
   * Sorts the fetched entries and numbers them: one row per entry, ranks
   * 1..n from the top, scores highest first, the same (name, score) pairs
   * as fetched, and equal scores in their fetched order.
   */
  method LoadAllScoresSorted(allScores: seq<LeaderboardEntry>) returns (rows: seq<LeaderboardRow>)
    ensures |rows| == |allScores|
    ensures forall i :: 0 <= i < |rows| ==> rows[i].rank == i + 1
    ensures forall i, j :: 0 <= i < j < |rows| ==> rows[i].score >= rows[j].score
    ensures multiset(RowEntries(rows)) == multiset(allScores)
    ensures forall k :: WithScore(RowEntries(rows), k) == WithScore(allScores, k)
  {
    var sorted := SortByScore(allScores);
    SortByScoreSorted(allScores);
    forall k ensures WithScore(sorted, k) == WithScore(allScores, k) {
      SortByScoreStable(allScores, k);
    }
    rows := [];
    var i := 0;
    while i < |sorted|
      invariant 0 <= i <= |sorted| && |rows| == i
      invariant forall j :: 0 <= j < i ==> rows[j] == LeaderboardRow(j + 1, sorted[j].username, sorted[j].score)
    {
      var entry := sorted[i];
      rows := rows + [LeaderboardRow(i + 1, entry.username, entry.score)];
      i := i + 1;
    }
    assert RowEntries(rows) == sorted;
  }
}
