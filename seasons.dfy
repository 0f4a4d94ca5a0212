/**
 * The season tally of convert_retrosheet.py (`Season`): every game-log row
 * registers both teams and their leagues, gives each team a game played, a
 * win or a loss, its runs scored and allowed, and the BaseRuns lines of its
 * offense and of the offense it faced; runs and BaseRuns are added to the
 * team's league too.
 *
 * This module states the tally on values (`Standings`); the class
 * `Season` of module Retrosheet does the same updates in place and is
 * proved to follow them.
 */
module Seasons {
  import opened Wrappers
  import opened Tallies
  import opened GameLogs

  /** The season's two dictionaries, `teams` and `leagues`, keyed by id. */
  datatype Standings = Standings(teams: map<string, Team>, leagues: map<string, Team>)

  const Empty := Standings(map[], map[])

  /** Every team names a league that the season holds (the reference `Team.league`). */
  predicate Linked(st: Standings) {
    forall id :: id in st.teams ==>
      st.teams[id].league.Some? && st.teams[id].league.value in st.leagues
  }

  /** Both teams of a game are registered and every link is intact. */
  predicate Ready(st: Standings, g: Game) {
    Linked(st) && g.visitor in st.teams && g.home in st.teams
  }

  /** Both offense lines are long enough for `_add_baseruns`. */
  predicate Complete(g: Game) {
    |g.visitorOffense| >= FieldsRead && |g.homeOffense| >= FieldsRead
  }

  /** The row's offense lines are long enough for `_add_baseruns`. */
  predicate Readable(row: GameLog) {
    |row.visitorOffense| >= FieldsRead && |row.homeOffense| >= FieldsRead
  }

  // ---------------------------------------------------------------------
  // The steps of `add_game`, on values
  // ---------------------------------------------------------------------

  /**
   * `Season.get_league`: a league that is absent is inserted with zero
   * counters; a present one is left as it is.  Teams are not touched.
   */
  function WithLeague(st: Standings, id: string): (r: Standings)
    ensures r.teams == st.teams
    ensures r.leagues.Keys == st.leagues.Keys + {id}
    ensures forall l :: l in st.leagues ==> r.leagues[l] == st.leagues[l]
    ensures id !in st.leagues ==> r.leagues[id] == NewLeague(id)
    ensures Linked(st) ==> Linked(r)
  {
    if id in st.leagues then st else st.(leagues := st.leagues[id := NewLeague(id)])
  }

  /**
   * `Season.get_team`: a team that is absent is inserted with zero counters
   * and the given league; a present one keeps its record, and its original
   * league, whatever league is passed.  Leagues are not touched.
   */
  function WithTeam(st: Standings, id: string, league: string): (r: Standings)
    ensures r.leagues == st.leagues
    ensures r.teams.Keys == st.teams.Keys + {id}
    ensures forall t :: t in st.teams ==> r.teams[t] == st.teams[t]
    ensures id !in st.teams ==> r.teams[id] == NewTeam(id, Some(league))
    ensures Linked(st) && league in st.leagues ==> Linked(r)
  {
    if id in st.teams then st else st.(teams := st.teams[id := NewTeam(id, Some(league))])
  }

  /** An update the source makes to a team object alone (`home.games += 1`, ...). */
  function Bump(st: Standings, id: string, e: Entry): (r: Standings)
    requires id in st.teams && e.Valid()
    ensures r.leagues == st.leagues && r.teams.Keys == st.teams.Keys
    ensures Linked(st) ==> Linked(r)
  {
    st.(teams := st.teams[id := Apply(st.teams[id], e)])
  }

  /**
   * An update the source makes to a team object and to its league object
   * (`Team.scored`, `Team.allowed`, `add_baseruns_offense`, `add_baseruns_defense`).
   */
  function Credit(st: Standings, id: string, e: Entry): (r: Standings)
    requires Linked(st) && id in st.teams && e.Valid()
    ensures r.leagues.Keys == st.leagues.Keys && r.teams.Keys == st.teams.Keys
    ensures Linked(r)
  {
    var league := st.teams[id].league.value;
    Standings(st.teams[id := Apply(st.teams[id], e)],
              st.leagues[league := Apply(st.leagues[league], e)])
  }

  /** The four get-or-create calls at the head of `add_game`, in the source's order. */
  function Registered(st: Standings, g: Game): (r: Standings)
    requires Linked(st)
    ensures Ready(r, g)
    ensures r.teams.Keys == st.teams.Keys + {g.visitor, g.home}
  {
    var st1 := WithLeague(st, g.visitorLeague);
    var st2 := WithTeam(st1, g.visitor, g.visitorLeague);
    var st3 := WithLeague(st2, g.homeLeague);
    WithTeam(st3, g.home, g.homeLeague)
  }

  /** Games played for both teams, then a win and a loss unless the game is a tie. */
  function Decided(st: Standings, g: Game): (r: Standings)
    requires Ready(st, g)
    ensures Ready(r, g) && r.leagues == st.leagues && r.teams.Keys == st.teams.Keys
  {
    var st1 := Bump(st, g.home, Played);
    var st2 := Bump(st1, g.visitor, Played);
    match Winner(g)
    case HomeWins => Bump(Bump(st2, g.home, Won), g.visitor, Lost)
    case VisitorWins => Bump(Bump(st2, g.home, Lost), g.visitor, Won)
    case Tie => st2
  }

  /** Runs scored and allowed for both teams, each mirrored onto the team's league. */
  function RunsCredited(st: Standings, g: Game): (r: Standings)
    requires Ready(st, g)
    ensures Ready(r, g) && r.leagues.Keys == st.leagues.Keys && r.teams.Keys == st.teams.Keys
  {
    var st1 := Credit(st, g.visitor, Scored(g.visitorScore));
    var st2 := Credit(st1, g.visitor, Allowed(g.homeScore));
    var st3 := Credit(st2, g.home, Scored(g.homeScore));
    Credit(st3, g.home, Allowed(g.visitorScore))
  }

  /** Each team's offense line goes to its offense and to the other team's defense. */
  function BaseRunsCredited(st: Standings, g: Game): (r: Standings)
    requires Ready(st, g) && Complete(g)
    ensures Ready(r, g) && r.leagues.Keys == st.leagues.Keys && r.teams.Keys == st.teams.Keys
  {
    var st1 := Credit(st, g.visitor, BaseRunsFor(OffenseSide, g.visitorOffense));
    var st2 := Credit(st1, g.visitor, BaseRunsFor(DefenseSide, g.homeOffense));
    var st3 := Credit(st2, g.home, BaseRunsFor(OffenseSide, g.homeOffense));
    Credit(st3, g.home, BaseRunsFor(DefenseSide, g.visitorOffense))
  }

  /** What `add_game` does once both teams are registered. */
  function Credited(st: Standings, g: Game): (r: Standings)
    requires Ready(st, g) && Complete(g)
    ensures Ready(r, g) && r.teams.Keys == st.teams.Keys
  {
    BaseRunsCredited(RunsCredited(Decided(st, g), g), g)
  }

  /** The whole of `Season.add_game` for one game. */
  function Tallied(st: Standings, g: Game): (r: Standings)
    requires Linked(st) && Complete(g)
    ensures Ready(r, g)
    ensures r.teams.Keys == st.teams.Keys + {g.visitor, g.home}
  {
    Credited(Registered(st, g), g)
  }

  /** The standings after feeding rows to a fresh season, one `add_game` each, in order. */
  ghost function Replay(rows: seq<GameLog>): (st: Standings)
    requires forall i :: 0 <= i < |rows| ==> Readable(rows[i])
    ensures Linked(st)
  {
    if rows == [] then Empty
    else
      var last := rows[|rows| - 1];
      assert Readable(last);
      Tallied(Replay(rows[..|rows| - 1]), GameOf(last))
  }

  // ---------------------------------------------------------------------
  // What a game gives a team: the reference definition
  // ---------------------------------------------------------------------

  datatype Role = AsVisitor | AsHome

  /**
   * What one game adds to one counter of the team playing it in the given
   * role: one game, a win when that side outscored the other, a loss when
   * the other side did, its own score as runs scored, the other's as runs
   * allowed, its own offense line on offense and the other's on defense.
   */
  function RoleAmount(g: Game, role: Role, c: Counter): nat
    requires Complete(g)
  {
    var own := if role == AsVisitor then g.visitorScore else g.homeScore;
    var other := if role == AsVisitor then g.homeScore else g.visitorScore;
    var line := if role == AsVisitor then g.visitorOffense else g.homeOffense;
    var faced := if role == AsVisitor then g.homeOffense else g.visitorOffense;
    match c
    case Games => 1
    case Wins => if own > other then 1 else 0
    case Losses => if other > own then 1 else 0
    case RunsScored => own
    case RunsAllowed => other
    case Offense(k) => Increment(line, k)
    case Defense(k) => Increment(faced, k)
  }

  /** What one game adds to a team's counter (twice over if it is listed on both sides). */
  function TeamShare(g: Game, id: string, c: Counter): nat
    requires Complete(g)
  {
    (if id == g.visitor then RoleAmount(g, AsVisitor, c) else 0)
    + (if id == g.home then RoleAmount(g, AsHome, c) else 0)
  }

  /** What one game adds to a counter summed over all teams. */
  function GameTotal(g: Game, c: Counter): nat
    requires Complete(g)
  {
    RoleAmount(g, AsVisitor, c) + RoleAmount(g, AsHome, c)
  }

  /** The league a game lists a team with; the visitor's when the team is on both sides. */
  function ListedLeague(g: Game, id: string): string {
    if id == g.visitor then g.visitorLeague else g.homeLeague
  }

  /** A team's counter before the game: zero when it is not yet registered. */
  function Before(st: Standings, id: string, c: Counter): nat {
    if id in st.teams then st.teams[id].Get(c) else 0
  }

  // ---------------------------------------------------------------------
  // Invariants
  // ---------------------------------------------------------------------

  /**
   * The season's bookkeeping is consistent: keys are names, every team's
   * league exists, a league's own won-lost record stays at zero, and each
   * league's runs and BaseRuns components are the sums over its teams.
   */
  ghost predicate Sound(st: Standings) {
    && Linked(st)
    && (forall id :: id in st.teams ==> st.teams[id].name == id)
    && (forall id :: id in st.leagues ==> st.leagues[id].name == id && st.leagues[id].league == None)
    && (forall id, c: Counter :: id in st.leagues && !c.Mirrored() ==> st.leagues[id].Get(c) == 0)
    && (forall id, c: Counter :: id in st.leagues && c.Mirrored() ==>
          st.leagues[id].Get(c) == Tally(st.teams, InLeague(id), c))
  }

  /**
   * Every run scored is a run allowed, every win is a loss, and every
   * BaseRuns component credited to an offense is credited to a defense.
   */
  ghost predicate Balanced(st: Standings) {
    && Tally(st.teams, AllTeams, RunsScored) == Tally(st.teams, AllTeams, RunsAllowed)
    && Tally(st.teams, AllTeams, Wins) == Tally(st.teams, AllTeams, Losses)
    && forall k :: Tally(st.teams, AllTeams, Offense(k)) == Tally(st.teams, AllTeams, Defense(k))
  }

  /** No team has more decisions than games. */
  predicate Records(st: Standings) {
    forall id :: id in st.teams ==> st.teams[id].wins + st.teams[id].losses <= st.teams[id].games
  }
}
