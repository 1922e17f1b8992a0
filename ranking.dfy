/** The leaderboard of the fishing game: every stored user projected to its name
    and score and sorted by score, highest first, with ties kept in storage order
    (JavaScript's Array.prototype.sort is stable); and the player's rank in it. */
module Ranking {
  import opened Util
  import opened Profiles

  datatype Entry = Entry(username: string, score: int)

  /** Each stored user as a leaderboard entry, in storage order: the user's name
      and score, nothing else. */
  function Entries(users: seq<UserRecord>): (es: seq<Entry>)
    ensures |es| == |users|
    ensures forall i :: 0 <= i < |users| ==> es[i].username == users[i].username && es[i].score == users[i].score
  {
    seq(|users|, i requires 0 <= i < |users| => Entry(users[i].username, users[i].score))
  }

  predicate SortedByScore(s: seq<Entry>) {
    forall i, j :: 0 <= i < j < |s| ==> s[i].score >= s[j].score
  }

  /** `e` placed before the first entry whose score does not exceed its own. */
  function Insert(e: Entry, s: seq<Entry>): seq<Entry> {
    if s == [] || e.score >= s[0].score then [e] + s
    else [s[0]] + Insert(e, s[1..])
  }

  /** A sort by descending score that neither loses nor invents an entry
      (insertion of each entry in front of the sorted rest). */
  function SortByScore(s: seq<Entry>): (r: seq<Entry>)
    ensures SortedByScore(r)
    ensures multiset(r) == multiset(s)
  {
    if s == [] then []
    else
      var rest := SortByScore(s[1..]);
      InsertSorted(s[0], rest);
      InsertPermutes(s[0], rest);
      assert s == [s[0]] + s[1..];
      Insert(s[0], rest)
  }

  /** The leaderboard computed from the stored users: one entry per stored user,
      highest score first. */
  function Leaderboard(users: seq<UserRecord>): (board: seq<Entry>)
    ensures |board| == |users|
    ensures SortedByScore(board)
    ensures multiset(board) == multiset(Entries(users))
  {
    var board := SortByScore(Entries(users));
    assert |board| == |multiset(board)| == |Entries(users)|;
    board
  }

  /** The entries of `s` whose score is `k`, in order. */
  function WithScore(s: seq<Entry>, k: int): seq<Entry> {
    if s == [] then []
    else if s[0].score == k then [s[0]] + WithScore(s[1..], k)
    else WithScore(s[1..], k)
  }

  lemma {:induction false} InsertPermutes(e: Entry, s: seq<Entry>)
    ensures multiset(Insert(e, s)) == multiset(s) + multiset{e}
  {
    if s != [] && e.score < s[0].score {
      InsertPermutes(e, s[1..]);
      assert s == [s[0]] + s[1..];
    }
  }

  lemma {:induction false} InsertSorted(e: Entry, s: seq<Entry>)
    requires SortedByScore(s)
    ensures SortedByScore(Insert(e, s))
  {
    if s != [] && e.score < s[0].score {
      var t := Insert(e, s[1..]);
      InsertSorted(e, s[1..]);
      InsertPermutes(e, s[1..]);
      forall j | 0 <= j < |t|
        ensures s[0].score >= t[j].score
      {
        assert t[j] in multiset(t);
        if t[j] != e {
          assert t[j] in multiset(s[1..]);
          var k :| 0 <= k < |s[1..]| && s[1..][k] == t[j];
          assert s[k + 1] == t[j];
        }
      }
    }
  }

  lemma {:induction false} InsertWithScore(e: Entry, s: seq<Entry>, k: int)
    ensures WithScore(Insert(e, s), k)
            == if e.score == k then [e] + WithScore(s, k) else WithScore(s, k)
  {
    if s == [] || e.score >= s[0].score {
      assert ([e] + s)[1..] == s;
    } else {
      // e.score < s[0].score, so s[0] and e never share a score class
      InsertWithScore(e, s[1..], k);
      assert ([s[0]] + Insert(e, s[1..]))[1..] == Insert(e, s[1..]);
    }
  }

  /** Stability: among entries with equal score, the leaderboard keeps the storage order. */
  lemma {:induction false} SortByScoreStable(s: seq<Entry>, k: int)
    ensures WithScore(SortByScore(s), k) == WithScore(s, k)
  {
    if s != [] {
      SortByScoreStable(s[1..], k);
      InsertWithScore(s[0], SortByScore(s[1..]), k);
    }
  }

  /** The leaderboard is the stored users' entries, sorted by descending score
      and stable among equal scores. */
  lemma LeaderboardSpec(users: seq<UserRecord>)
    ensures SortedByScore(Leaderboard(users))
    ensures multiset(Leaderboard(users)) == multiset(Entries(users))
    ensures forall k :: WithScore(Leaderboard(users), k) == WithScore(Entries(users), k)
  {
    forall k ensures WithScore(Leaderboard(users), k) == WithScore(Entries(users), k) {
      SortByScoreStable(Entries(users), k);
    }
  }

  /** The player's 1-based position on the board, or 0 when there is no player or
      the player is not on it. */
  function PlayerRank(board: seq<Entry>, player: Option<string>): (rank: nat)
    ensures rank <= |board|
    ensures rank == 0 <==> player == None || forall i :: 0 <= i < |board| ==> board[i].username != player.value
    ensures 0 < rank ==> board[rank - 1].username == player.value
                         && forall i :: 0 <= i < rank - 1 ==> board[i].username != player.value
  {
    match player
    case None => 0
    case Some(name) => FindIndex(board, (e: Entry) => e.username == name) + 1
  }

  /** A stored user's entry is on any board that permutes the entries. */
  lemma StoredIsOnBoard(users: seq<UserRecord>, board: seq<Entry>, name: string)
    requires multiset(board) == multiset(Entries(users))
    requires HasUser(users, name)
    ensures exists i :: 0 <= i < |board| && board[i].username == name
  {
    var entries := Entries(users);
    var j :| 0 <= j < |users| && users[j].username == name;
    assert entries[j] in multiset(board);
    var i :| 0 <= i < |board| && board[i] == entries[j];
  }

  /** Every entry of a board that permutes the entries names a stored user. */
  lemma OnBoardIsStored(users: seq<UserRecord>, board: seq<Entry>, i: int)
    requires multiset(board) == multiset(Entries(users))
    requires 0 <= i < |board|
    ensures HasUser(users, board[i].username)
  {
    var entries := Entries(users);
    assert board[i] in multiset(entries);
    var j :| 0 <= j < |entries| && entries[j] == board[i];
    assert users[j].username == board[i].username;
  }

  /** On a freshly computed leaderboard a player is unranked exactly when no user
      of that name is stored; in particular every stored player is ranked. */
  lemma RankZeroIffUnstored(users: seq<UserRecord>, name: string)
    ensures PlayerRank(Leaderboard(users), Some(name)) == 0 <==> !HasUser(users, name)
  {
    var board := Leaderboard(users);
    var rank := PlayerRank(board, Some(name));
    if HasUser(users, name) {
      StoredIsOnBoard(users, board, name);
    }
    if rank != 0 {
      OnBoardIsStored(users, board, rank - 1);
    }
  }
}
