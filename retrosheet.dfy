/**
 * The converter's `Season` object: two dictionaries of team and league
 * records that `add_game` updates in place, one game-log row at a time.
 * Each method is proved to leave the object in the state the value model
 * of module Seasons prescribes, so everything proved there about the
 * tally holds of the object.
 *
 * The Python `Team` methods (`scored`, `allowed`, `add_baseruns_offense`,
 * `add_baseruns_defense`) update a team object and the league object it
 * points to; here they are methods of the season, naming the team by id,
 * since the season owns every record.
 */
module Retrosheet {
  import opened Wrappers
  import opened Tallies
  import opened GameLogs
  import opened Seasons
  import opened SeasonLaws

  class Season {
    var teams: map<string, Team>
    var leagues: map<string, Team>

    /** The object's two dictionaries as a value. */
    function State(): Standings
      reads this
    {
      Standings(teams, leagues)
    }

    /** Object invariant: the bookkeeping is sound (see `Seasons.Sound`). */
    ghost predicate Valid()
      reads this
    {
      Sound(State())
    }

    /** `Season.__init__`: no teams and no leagues. */
    constructor()
      ensures State() == Empty && Valid()
    {
      teams := map[];
      leagues := map[];
    }

    /**
     * `Season.get_league`: returns the league with that id, inserting a
     * fresh one first when there is none.
     */
    method GetLeague(id: string) returns (league: Team)
      requires Valid()
      modifies this
      ensures State() == WithLeague(old(State()), id)
      ensures id in leagues && league == leagues[id]
      ensures Valid()
    {
      WithLeagueSound(State(), id);
      if id in leagues {
        league := leagues[id];
      } else {
        league := NewLeague(id);
        leagues := leagues[id := league];
      }
    }

    /**
     * `Season.get_team`: returns the team with that id, inserting a fresh
     * one in the given league first when there is none; a team already
     * present keeps the league it was created with.
     */
    method GetTeam(id: string, league: string) returns (team: Team)
      requires Valid()
      modifies this
      ensures State() == WithTeam(old(State()), id, league)
      ensures id in teams && team == teams[id]
      ensures league in leagues ==> Valid()
    {
      if league in leagues {
        WithTeamSound(State(), id, league);
      }
      if id !in teams {
        team := NewTeam(id, Some(league));
        teams := teams[id := team];
      } else {
        team := teams[id];
      }
    }

    /** `Team.scored`: adds the runs to the team and to its league. */
    method Scored(id: string, runs: nat)
      requires Valid() && id in teams
      modifies this
      ensures State() == Credit(old(State()), id, Entry.Scored(runs))
      ensures Valid()
    {
      CreditSound(State(), id, Entry.Scored(runs));
      var team := teams[id];
      var league := team.league.value;
      teams := teams[id := team.(runsScored := team.runsScored + runs)];
      leagues := leagues[league := leagues[league].(runsScored := leagues[league].runsScored + runs)];
    }

    /** `Team.allowed`: adds the runs to what the team and its league allowed. */
    method Allowed(id: string, runs: nat)
      requires Valid() && id in teams
      modifies this
      ensures State() == Credit(old(State()), id, Entry.Allowed(runs))
      ensures Valid()
    {
      CreditSound(State(), id, Entry.Allowed(runs));
      var team := teams[id];
      var league := team.league.value;
      teams := teams[id := team.(runsAllowed := team.runsAllowed + runs)];
      leagues := leagues[league := leagues[league].(runsAllowed := leagues[league].runsAllowed + runs)];
    }

    /** `Team.add_baseruns_offense`: adds an offense line to the team's and its league's offense. */
    method AddBaseRunsOffense(id: string, offense: seq<nat>)
      requires Valid() && id in teams && |offense| >= FieldsRead
      modifies this
      ensures State() == Credit(old(State()), id, BaseRunsFor(OffenseSide, offense))
      ensures Valid()
    {
      CreditSound(State(), id, BaseRunsFor(OffenseSide, offense));
      var team := teams[id];
      var league := team.league.value;
      teams := teams[id := team.(offense := AddBaseRuns(team.offense, offense))];
      leagues := leagues[league := leagues[league].(offense := AddBaseRuns(leagues[league].offense, offense))];
    }

    /** `Team.add_baseruns_defense`: adds the line faced to the team's and its league's defense. */
    method AddBaseRunsDefense(id: string, defense: seq<nat>)
      requires Valid() && id in teams && |defense| >= FieldsRead
      modifies this
      ensures State() == Credit(old(State()), id, BaseRunsFor(DefenseSide, defense))
      ensures Valid()
    {
      CreditSound(State(), id, BaseRunsFor(DefenseSide, defense));
      var team := teams[id];
      var league := team.league.value;
      teams := teams[id := team.(defense := AddBaseRuns(team.defense, defense))];
      leagues := leagues[league := leagues[league].(defense := AddBaseRuns(leagues[league].defense, defense))];
    }

    /**
     * `Season.add_game`: registers both teams and their leagues, records a
     * game for each, a win and a loss unless the game is tied, both scores,
     * and both offense lines.  The four blocks of statements of the source
     * are the four methods it calls.  The object ends in the state
     * `Tallied` prescribes; it stays sound, and stays balanced and within
     * records when it was before.
     */
    method AddGame(row: GameLog)
      requires Valid() && Readable(row)
      modifies this
      ensures State() == Tallied(old(State()), GameOf(row))
      ensures Valid()
      ensures old(Balanced(State())) ==> Balanced(State())
      ensures old(Records(State())) ==> Records(State())
    {
      ghost var before := State();
      var game := NewGame(row);
      Register(game);
      Decide(game);
      CreditRuns(game);
      CreditBaseRuns(game);
      if Balanced(before) {
        TalliedBalanced(before, game);
      }
      if Records(before) {
        TalliedRecords(before, game);
      }
    }

    /** The get-or-create calls at the head of `add_game`, in the source's order. */
    method Register(game: Game)
      requires Valid()
      modifies this
      ensures State() == Registered(old(State()), game) && Valid()
    {
      var visitorLeague := GetLeague(game.visitorLeague);
      var visitor := GetTeam(game.visitor, game.visitorLeague);
      var homeLeague := GetLeague(game.homeLeague);
      var home := GetTeam(game.home, game.homeLeague);
    }

    /** Games played for both teams, then a win and a loss unless the game is tied. */
    method Decide(game: Game)
      requires Valid() && Ready(State(), game)
      modifies this
      ensures State() == Decided(old(State()), game) && Valid()
    {
      var winner := Winner(game);
      Played(game.home);
      Played(game.visitor);
      if winner == HomeWins {
        Won(game.home);
        Lost(game.visitor);
      } else if winner == VisitorWins {
        Lost(game.home);
        Won(game.visitor);
      }
    }

    /** Both scores, as runs scored by one side and allowed by the other. */
    method CreditRuns(game: Game)
      requires Valid() && Ready(State(), game)
      modifies this
      ensures State() == RunsCredited(old(State()), game) && Valid()
    {
      Scored(game.visitor, game.visitorScore);
      Allowed(game.visitor, game.homeScore);
      Scored(game.home, game.homeScore);
      Allowed(game.home, game.visitorScore);
    }

    /** Each offense line, to its own side's offense and the other side's defense. */
    method CreditBaseRuns(game: Game)
      requires Valid() && Ready(State(), game) && Complete(game)
      modifies this
      ensures State() == BaseRunsCredited(old(State()), game) && Valid()
    {
      AddBaseRunsOffense(game.visitor, game.visitorOffense);
      AddBaseRunsDefense(game.visitor, game.homeOffense);
      AddBaseRunsOffense(game.home, game.homeOffense);
      AddBaseRunsDefense(game.home, game.visitorOffense);
    }

    /** `home.games += 1` (and the visitor's) in `add_game`. */
    method Played(id: string)
      requires Valid() && id in teams
      modifies this
      ensures State() == Bump(old(State()), id, Entry.Played)
      ensures Valid()
    {
      BumpSound(State(), id, Entry.Played);
      teams := teams[id := teams[id].(games := teams[id].games + 1)];
    }

    /** `wins += 1` in `add_game`. */
    method Won(id: string)
      requires Valid() && id in teams
      modifies this
      ensures State() == Bump(old(State()), id, Entry.Won)
      ensures Valid()
    {
      BumpSound(State(), id, Entry.Won);
      teams := teams[id := teams[id].(wins := teams[id].wins + 1)];
    }

    /** `losses += 1` in `add_game`. */
    method Lost(id: string)
      requires Valid() && id in teams
      modifies this
      ensures State() == Bump(old(State()), id, Entry.Lost)
      ensures Valid()
    {
      BumpSound(State(), id, Entry.Lost);
      teams := teams[id := teams[id].(losses := teams[id].losses + 1)];
    }
  }
}
