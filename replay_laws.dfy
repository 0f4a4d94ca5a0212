/**
 * What holds after a whole season of game-log rows has gone through
 * `Season.add_game`, one row at a time from a fresh season.
 */
module ReplayLaws {
  import opened Wrappers
  import opened Tallies
  import opened GameLogs
  import opened Seasons
  import opened SeasonLaws

  /** Every row of the list can be read by `_add_baseruns`. */
  predicate AllReadable(rows: seq<GameLog>) {
    forall i :: 0 <= i < |rows| ==> Readable(rows[i])
  }

  /** The team plays in some row of the list. */
  predicate Appears(rows: seq<GameLog>, id: string) {
    exists i :: 0 <= i < |rows| && (rows[i].visitor == id || rows[i].home == id)
  }

  /** The league the team is listed with in the first row it plays in. */
  ghost function FirstLeague(rows: seq<GameLog>, id: string): string
    requires Appears(rows, id)
  {
    var prefix := rows[..|rows| - 1];
    if Appears(prefix, id) then FirstLeague(prefix, id) else ListedLeague(GameOf(rows[|rows| - 1]), id)
  }

  /** What the rows give one counter of a team, game by game. */
  ghost function ShareOver(rows: seq<GameLog>, id: string, c: Counter): nat
    requires AllReadable(rows)
  {
    if rows == [] then 0
    else
      var prefix := rows[..|rows| - 1];
      var last := rows[|rows| - 1];
      assert Readable(last);
      ShareOver(prefix, id, c) + TeamShare(GameOf(last), id, c)
  }

  /** What the rows give one counter summed over both teams of every game. */
  ghost function TotalOver(rows: seq<GameLog>, c: Counter): nat
    requires AllReadable(rows)
  {
    if rows == [] then 0
    else
      var prefix := rows[..|rows| - 1];
      var last := rows[|rows| - 1];
      assert Readable(last);
      TotalOver(prefix, c) + GameTotal(GameOf(last), c)
  }

  /** The last row is readable, so are the ones before it, and the replay ends with its game. */
  lemma Step(rows: seq<GameLog>)
    requires AllReadable(rows) && rows != []
    ensures AllReadable(rows[..|rows| - 1]) && Readable(rows[|rows| - 1])
    ensures Complete(GameOf(rows[|rows| - 1]))
    ensures Replay(rows) == Tallied(Replay(rows[..|rows| - 1]), GameOf(rows[|rows| - 1]))
  {
  }

  /** A row list without its last row, and that row, split up. */
  lemma Split(rows: seq<GameLog>, id: string)
    requires rows != []
    ensures Appears(rows, id) <==>
      Appears(rows[..|rows| - 1], id) || rows[|rows| - 1].visitor == id || rows[|rows| - 1].home == id
  {
    var prefix := rows[..|rows| - 1];
    if Appears(rows, id) {
      var i :| 0 <= i < |rows| && (rows[i].visitor == id || rows[i].home == id);
      if i < |rows| - 1 {
        assert prefix[i] == rows[i];
      }
    }
    if Appears(prefix, id) {
      var i :| 0 <= i < |prefix| && (prefix[i].visitor == id || prefix[i].home == id);
      assert rows[i] == prefix[i];
    }
  }

  /** A team that plays in no row gets nothing from them. */
  lemma {:induction false} ShareOverAbsent(rows: seq<GameLog>, id: string, c: Counter)
    requires AllReadable(rows) && !Appears(rows, id)
    ensures ShareOver(rows, id, c) == 0
  {
    if rows != [] {
      var prefix := rows[..|rows| - 1];
      Split(rows, id);
      ShareOverAbsent(prefix, id, c);
    }
  }

  /** A fresh season satisfies every invariant. */
  lemma EmptyInvariants()
    ensures Sound(Empty) && Balanced(Empty) && Records(Empty)
  {
    assert Sound(Empty);
    forall c
      ensures Tally(Empty.teams, AllTeams, c) == 0
    {
    }
  }

  /**
   * However many rows are fed in, every league's runs and BaseRuns
   * components are the sums over its teams, the season's runs scored equal
   * its runs allowed, its wins equal its losses, and no team has more
   * decisions than games.
   */
  lemma {:induction false} ReplayInvariants(rows: seq<GameLog>)
    requires AllReadable(rows)
    ensures Sound(Replay(rows)) && Balanced(Replay(rows)) && Records(Replay(rows))
  {
    if rows == [] {
      EmptyInvariants();
    } else {
      var prefix := rows[..|rows| - 1];
      assert AllReadable(prefix);
      ReplayInvariants(prefix);
      var last := rows[|rows| - 1];
      assert Readable(last);
      var st := Replay(prefix);
      var g := GameOf(last);
      TalliedSound(st, g);
      TalliedBalanced(st, g);
      TalliedRecords(st, g);
    }
  }

  lemma TotalStep(rows: seq<GameLog>, c: Counter)
    requires AllReadable(rows) && rows != []
    ensures AllReadable(rows[..|rows| - 1]) && Readable(rows[|rows| - 1])
    ensures Tally(Replay(rows).teams, AllTeams, c)
         == Tally(Replay(rows[..|rows| - 1]).teams, AllTeams, c) + GameTotal(GameOf(rows[|rows| - 1]), c)
  {
    Step(rows);
    TalliedTotal(Replay(rows[..|rows| - 1]), GameOf(rows[|rows| - 1]), c);
  }

  /** Summed over all teams, each counter is what the games give both sides. */
  lemma {:induction false} ReplayTotal(rows: seq<GameLog>, c: Counter)
    requires AllReadable(rows)
    ensures Tally(Replay(rows).teams, AllTeams, c) == TotalOver(rows, c)
  {
    if rows == [] {
    } else {
      var prefix := rows[..|rows| - 1];
      TotalStep(rows, c);
      ReplayTotal(prefix, c);
      assert TotalOver(rows, c) == TotalOver(prefix, c) + GameTotal(GameOf(rows[|rows| - 1]), c);
    }
  }

  /** Every game is played by two teams, so the season's games played are twice its rows. */
  lemma {:induction false} GamesPlayed(rows: seq<GameLog>)
    requires AllReadable(rows)
    ensures Tally(Replay(rows).teams, AllTeams, Games) == 2 * |rows|
  {
    ReplayTotal(rows, Games);
    TotalGames(rows);
  }

  lemma {:induction false} TotalGames(rows: seq<GameLog>)
    requires AllReadable(rows)
    ensures TotalOver(rows, Games) == 2 * |rows|
  {
    if rows != [] {
      var prefix := rows[..|rows| - 1];
      assert AllReadable(prefix);
      TotalGames(prefix);
    }
  }

  /** The last row registers exactly its two teams. */
  lemma MembersStep(rows: seq<GameLog>, id: string)
    requires AllReadable(rows) && rows != []
    ensures AllReadable(rows[..|rows| - 1]) && Readable(rows[|rows| - 1])
    ensures id in Replay(rows).teams <==>
      id in Replay(rows[..|rows| - 1]).teams || id == rows[|rows| - 1].visitor || id == rows[|rows| - 1].home
  {
    Step(rows);
    var g := GameOf(rows[|rows| - 1]);
    KeyInPair(Replay(rows).teams, Replay(rows[..|rows| - 1]).teams.Keys, g.visitor, g.home, id);
  }

  /** The last row keeps a registered team's league and gives a new team the league it lists it with. */
  lemma LeagueStep(rows: seq<GameLog>, id: string)
    requires AllReadable(rows) && rows != [] && id in Replay(rows).teams
    ensures AllReadable(rows[..|rows| - 1]) && Readable(rows[|rows| - 1])
    ensures id in Replay(rows[..|rows| - 1]).teams ==>
      Replay(rows).teams[id].league == Replay(rows[..|rows| - 1]).teams[id].league
    ensures id !in Replay(rows[..|rows| - 1]).teams ==>
      Replay(rows).teams[id].league == Some(ListedLeague(GameOf(rows[|rows| - 1]), id))
  {
    Step(rows);
    TalliedLeague(Replay(rows[..|rows| - 1]), GameOf(rows[|rows| - 1]), id);
  }

  /** The season holds exactly the teams that play in some row. */
  lemma {:induction false} ReplayMembers(rows: seq<GameLog>, id: string)
    requires AllReadable(rows)
    ensures id in Replay(rows).teams <==> Appears(rows, id)
  {
    if rows != [] {
      var prefix := rows[..|rows| - 1];
      MembersStep(rows, id);
      ReplayMembers(prefix, id);
      Split(rows, id);
    }
  }

  lemma CountStep(rows: seq<GameLog>, id: string, c: Counter)
    requires AllReadable(rows) && rows != []
    ensures AllReadable(rows[..|rows| - 1]) && Readable(rows[|rows| - 1])
    ensures Before(Replay(rows), id, c)
         == Before(Replay(rows[..|rows| - 1]), id, c) + TeamShare(GameOf(rows[|rows| - 1]), id, c)
  {
    Step(rows);
    TalliedBefore(Replay(rows[..|rows| - 1]), GameOf(rows[|rows| - 1]), id, c);
  }

  /**
   * Each counter of a team is what its games give it, game by game; a team
   * that is not in the season counts as zero.
   */
  lemma {:induction false} ReplayCounts(rows: seq<GameLog>, id: string, c: Counter)
    requires AllReadable(rows)
    ensures Before(Replay(rows), id, c) == ShareOver(rows, id, c)
  {
    if rows != [] {
      var prefix := rows[..|rows| - 1];
      CountStep(rows, id, c);
      ReplayCounts(prefix, id, c);
      assert ShareOver(rows, id, c) == ShareOver(prefix, id, c) + TeamShare(GameOf(rows[|rows| - 1]), id, c);
    }
  }

  /**
   * A team keeps the league it was listed with in the first game it played:
   * the league given with it in later rows is ignored.
   */
  lemma {:induction false} ReplayLeague(rows: seq<GameLog>, id: string)
    requires AllReadable(rows) && Appears(rows, id)
    ensures id in Replay(rows).teams
    ensures Replay(rows).teams[id].league == Some(FirstLeague(rows, id))
  {
    ReplayMembers(rows, id);
    var prefix := rows[..|rows| - 1];
    LeagueStep(rows, id);
    ReplayMembers(prefix, id);
    if Appears(prefix, id) {
      ReplayLeague(prefix, id);
      assert FirstLeague(rows, id) == FirstLeague(prefix, id);
    } else {
      assert FirstLeague(rows, id) == ListedLeague(GameOf(rows[|rows| - 1]), id);
    }
  }

}
