/**
 * The simulator's data model (winsim.ts): a season read from the
 * converter's JSON becomes a list of `Team` objects and a `Schedule` of
 * `Game` objects.  The constructors only copy values out of the records
 * they are given, keeping every list's length and order.
 */
module Winsim {
  import opened Wrappers

  /**
   * A winning percentage written by the converter.  The simulator never
   * computes with it, only copies it, so nothing about it is assumed but
   * that it can be compared.
   */
  type Percentage(==)

  /** One team record of the season file, as `team_data` holds it. */
  datatype TeamRecord = TeamRecord(name: string, league: string,
                                   winPercentage: Percentage,
                                   pythagenpatPercentage: Percentage,
                                   baserunsPercentage: Percentage,
                                   wins: int, losses: int)

  /**
   * Element `i` of a schedule row, or None where indexing past the end of
   * a TypeScript array gives `undefined`.
   */
  function Cell(row: seq<string>, i: nat): (v: Option<string>)
    ensures v.Some? <==> i < |row|
    ensures i < |row| ==> v.value == row[i]
  {
    if i < |row| then Some(row[i]) else None
  }

  class Game {
    var date: Option<string>
    var awayTeam: Option<string>
    var homeTeam: Option<string>

    /** Whether the game holds the date and the two teams of a schedule row. */
    ghost predicate From(row: seq<string>)
      reads this
    {
      date == Cell(row, 0) && awayTeam == Cell(row, 1) && homeTeam == Cell(row, 2)
    }

    /** `Game` constructor: the date, the away team and the home team are the row's first three elements. */
    constructor(gameData: seq<string>)
      ensures From(gameData)
    {
      date := Cell(gameData, 0);
      awayTeam := Cell(gameData, 1);
      homeTeam := Cell(gameData, 2);
    }
  }

  class Schedule {
    var game: seq<Game>

    /** `Schedule` constructor: one new `Game` per row, in the rows' order. */
    constructor(scheduleData: seq<seq<string>>)
      ensures |game| == |scheduleData|
      ensures forall i :: 0 <= i < |game| ==> fresh(game[i]) && game[i].From(scheduleData[i])
      ensures forall i, j :: 0 <= i < j < |game| ==> game[i] != game[j]
    {
      game := [];
      new;
      for n := 0 to |scheduleData|
        invariant |game| == n
        invariant forall i :: 0 <= i < n ==> fresh(game[i]) && game[i].From(scheduleData[i])
        invariant forall i, j :: 0 <= i < j < n ==> game[i] != game[j]
      {
        var g := new Game(scheduleData[n]);
        game := game + [g];
      }
    }
  }

  class Team {
    var name: string
    var league: string
    var winPercentage: Percentage
    var pythagenpatPercentage: Percentage
    var baserunsPercentage: Percentage
    var wins: int
    var losses: int

    /** The team's fields as a record. */
    function Record(): TeamRecord
      reads this
    {
      TeamRecord(name, league, winPercentage, pythagenpatPercentage, baserunsPercentage, wins, losses)
    }

    /** `Team` constructor: copies all seven fields of the record unchanged. */
    constructor(teamData: TeamRecord)
      ensures Record() == teamData
    {
      name := teamData.name;
      league := teamData.league;
      winPercentage := teamData.winPercentage;
      pythagenpatPercentage := teamData.pythagenpatPercentage;
      baserunsPercentage := teamData.baserunsPercentage;
      wins := teamData.wins;
      losses := teamData.losses;
    }
  }

  class Season {
    var teams: seq<Team>
    var schedule: Schedule

    /**
     * `Season` constructor: the teams come from the team records alone and
     * the schedule from the schedule rows alone.
     */
    constructor(teamsData: seq<TeamRecord>, scheduleData: seq<seq<string>>)
      ensures |teams| == |teamsData|
      ensures forall i :: 0 <= i < |teams| ==> fresh(teams[i]) && teams[i].Record() == teamsData[i]
      ensures forall i, j :: 0 <= i < j < |teams| ==> teams[i] != teams[j]
      ensures fresh(schedule) && |schedule.game| == |scheduleData|
      ensures forall i :: 0 <= i < |scheduleData| ==> fresh(schedule.game[i]) && schedule.game[i].From(scheduleData[i])
    {
      var created := CreateTeams(teamsData);
      teams := created;
      schedule := new Schedule(scheduleData);
    }

    /** `createTeams`: one new `Team` per record, in the records' order. */
    static method CreateTeams(teamsData: seq<TeamRecord>) returns (created: seq<Team>)
      ensures |created| == |teamsData|
      ensures forall i :: 0 <= i < |created| ==> fresh(created[i]) && created[i].Record() == teamsData[i]
      ensures forall i, j :: 0 <= i < j < |created| ==> created[i] != created[j]
    {
      created := [];
      for n := 0 to |teamsData|
        invariant |created| == n
        invariant forall i :: 0 <= i < n ==> fresh(created[i]) && created[i].Record() == teamsData[i]
        invariant forall i, j :: 0 <= i < j < n ==> created[i] != created[j]
      {
        var team := new Team(teamsData[n]);
        created := created + [team];
      }
    }
  }
}
