/** The computations of the race view (src/components/RaceRoom.tsx): the progress
    percentage the client reports, the leaderboard order, the winner, and the
    per-player standing shown in the results table. */
module RaceRoom {
  import opened Types
  import opened Logic

  /** The `update_progress` message the client sends for its own player. */
  datatype ProgressMessage = ProgressMessage(id: string, wpm: real, progress: real)

  /** handleStatsUpdate: what is sent after a stats update, if anything. */
  function ProgressReport(room: Option<RaceRoomState>, stats: Stats): (msg: Option<ProgressMessage>)
    ensures msg.None? <==> room.None? || room.value.text == ""
    ensures msg.Some? ==> msg.value.id == PlayerId && msg.value.wpm == stats.wpm as real
    ensures msg.Some? ==> msg.value.progress <= 100.0
    ensures msg.Some? && stats.correctChars >= 0 ==> msg.value.progress >= 0.0
    ensures msg.Some? ==> (msg.value.progress == 100.0 <==> stats.correctChars >= |room.value.text|)
    ensures msg.Some? && stats.correctChars < |room.value.text| ==>
      msg.value.progress * |room.value.text| as real == stats.correctChars as real * 100.0
  {
    if room.None? || room.value.text == "" then None
    else
      var length := |room.value.text|;
      var progress := MinReal(100.0, (stats.correctChars as real / length as real) * 100.0);
      assert stats.correctChars < length ==> (stats.correctChars as real / length as real) < 1.0;
      Some(ProgressMessage(PlayerId, stats.wpm as real, progress))
  }

  /** The leaderboard comparator: `a` may stand before `b` (further along, or level
      and at least as fast). */
  predicate Ahead(a: RacePlayer, b: RacePlayer)
  {
    a.progress > b.progress || (a.progress == b.progress && a.wpm >= b.wpm)
  }

  predicate Ranked(s: seq<RacePlayer>)
  {
    forall i, j :: 0 <= i < j < |s| ==> Ahead(s[i], s[j])
  }

  /** `x` may stand before every element of `s`. */
  predicate LeadsAll(x: RacePlayer, s: seq<RacePlayer>)
  {
    forall k :: 0 <= k < |s| ==> Ahead(x, s[k])
  }

  lemma RankedCons(x: RacePlayer, s: seq<RacePlayer>)
    requires LeadsAll(x, s) && Ranked(s)
    ensures Ranked([x] + s)
  {
    var r := [x] + s;
    forall i, j | 0 <= i < j < |r| ensures Ahead(r[i], r[j]) {
      if i > 0 {
        assert r[i] == s[i - 1] && r[j] == s[j - 1];
      }
    }
  }

  lemma LeadsAllPermutation(x: RacePlayer, a: seq<RacePlayer>, p: RacePlayer, b: seq<RacePlayer>)
    requires LeadsAll(x, a) && Ahead(x, p)
    requires multiset(b) == multiset(a) + multiset{p}
    ensures LeadsAll(x, b)
  {
    forall k | 0 <= k < |b| ensures Ahead(x, b[k]) {
      assert b[k] in multiset(b);
      if b[k] != p {
        assert b[k] in multiset(a);
        var m :| 0 <= m < |a| && a[m] == b[k];
      }
    }
  }

  /** One step of the stable sort: `p`, which came before every element of `s` in the
      room's order, goes in front of the first element it is not behind. */
  function Insert(p: RacePlayer, s: seq<RacePlayer>): (r: seq<RacePlayer>)
    requires Ranked(s)
    ensures Ranked(r)
    ensures multiset(r) == multiset(s) + multiset{p}
    ensures |r| == |s| + 1
  {
    if |s| == 0 then [p]
    else if Ahead(p, s[0]) then
      RankedCons(p, s);
      [p] + s
    else
      var rest := Insert(p, s[1..]);
      assert s == [s[0]] + s[1..];
      LeadsAllPermutation(s[0], s[1..], p, rest);
      RankedCons(s[0], rest);
      [s[0]] + rest
  }

  /** sortedPlayers: a sorted copy of the room's players; the room is not touched. */
  function SortPlayers(players: seq<RacePlayer>): (sorted: seq<RacePlayer>)
    ensures Ranked(sorted)
    ensures multiset(sorted) == multiset(players)
    ensures |sorted| == |players|
  {
    if |players| == 0 then []
    else
      assert players == [players[0]] + players[1..];
      Insert(players[0], SortPlayers(players[1..]))
  }

  /** The head of the leaderboard: a player of the room ahead of every other. */
  function Winner(players: seq<RacePlayer>): (w: RacePlayer)
    requires |players| > 0
    ensures w in players
    ensures forall i :: 0 <= i < |players| ==> Ahead(w, players[i])
  {
    var sorted := SortPlayers(players);
    assert sorted[0] in multiset(players);
    forall i | 0 <= i < |players| ensures Ahead(sorted[0], players[i]) {
      assert players[i] in multiset(sorted);
      var j :| 0 <= j < |sorted| && sorted[j] == players[i];
      if j == 0 {
        assert Ahead(sorted[0], sorted[0]);
      }
    }
    sorted[0]
  }

  /** The results banner: a victory when the leaderboard's head is the local player. */
  predicate IsVictory(players: seq<RacePlayer>): (victory: bool)
    requires |players| > 0
    ensures victory ==> exists i :: 0 <= i < |players| && players[i].id == PlayerId
  {
    Winner(players).id == PlayerId
  }

  predicate StrictlyAhead(a: RacePlayer, b: RacePlayer)
  {
    a.progress > b.progress || (a.progress == b.progress && a.wpm > b.wpm)
  }

  /** A victory means the local player leads everyone; leading everyone else strictly
      guarantees a victory. */
  lemma VictoryMeansLeading(players: seq<RacePlayer>, me: nat)
    requires me < |players| && players[me].id == PlayerId
    requires forall i :: 0 <= i < |players| && players[i].id == PlayerId ==> i == me
    ensures IsVictory(players) ==> forall i :: 0 <= i < |players| ==> Ahead(players[me], players[i])
    ensures (forall i :: 0 <= i < |players| && i != me ==> StrictlyAhead(players[me], players[i])) ==>
      IsVictory(players)
  {
    var w := Winner(players);
    var k :| 0 <= k < |players| && players[k] == w;
    if IsVictory(players) {
      assert k == me;
    }
    assert Ahead(w, players[me]);
  }

  datatype Standing = FinishedRace | DidNotFinish

  /** The FINISHED / DNF label of a player. */
  function StandingOf(p: RacePlayer): (s: Standing)
    ensures s == FinishedRace <==> p.progress >= 100.0
  {
    if p.progress >= 100.0 then FinishedRace else DidNotFinish
  }

  /** When some player has reached the end, the leaderboard's head is labelled FINISHED. */
  lemma WinnerFinished(players: seq<RacePlayer>, i: nat)
    requires i < |players| && players[i].progress >= 100.0
    ensures StandingOf(Winner(players)) == FinishedRace
  {
    assert Ahead(Winner(players), players[i]);
  }
}
