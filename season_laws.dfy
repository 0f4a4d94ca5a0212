/**
 * What `Season.add_game` preserves and what it adds, proved on the value
 * model of the season tally.
 */
module SeasonLaws {
  import opened Wrappers
  import opened Tallies
  import opened GameLogs
  import opened Seasons

  // ---------------------------------------------------------------------
  // Get-or-create
  // ---------------------------------------------------------------------

  /** Asking twice for the same league is the same as asking once. */
  lemma WithLeagueIdempotent(st: Standings, id: string)
    ensures WithLeague(WithLeague(st, id), id) == WithLeague(st, id)
  {
  }

  /** Asking twice for the same team is the same as asking once, whatever league the second call names. */
  lemma WithTeamIdempotent(st: Standings, id: string, league: string, other: string)
    ensures WithTeam(WithTeam(st, id, league), id, other) == WithTeam(st, id, league)
  {
  }

  // ---------------------------------------------------------------------
  // Each step keeps the bookkeeping sound
  // ---------------------------------------------------------------------

  lemma WithLeagueSound(st: Standings, id: string)
    requires Sound(st)
    ensures Sound(WithLeague(st, id))
  {
    if id !in st.leagues {
      forall c: Counter | c.Mirrored()
        ensures Tally(st.teams, InLeague(id), c) == 0
      {
        TallyOutOfScope(st.teams, InLeague(id), c);
      }
    }
  }

  /** Registering a team with zero counters changes no sum. */
  lemma WithTeamTally(st: Standings, id: string, league: string, s: Scope, c: Counter)
    ensures Tally(WithTeam(st, id, league).teams, s, c) == Tally(st.teams, s, c)
  {
    if id !in st.teams {
      TallyUpdate(st.teams, id, NewTeam(id, Some(league)), s, c);
    }
  }

  lemma WithTeamSound(st: Standings, id: string, league: string)
    requires Sound(st) && league in st.leagues
    ensures Sound(WithTeam(st, id, league))
  {
    var r := WithTeam(st, id, league);
    forall l, c: Counter | l in r.leagues && c.Mirrored()
      ensures r.leagues[l].Get(c) == Tally(r.teams, InLeague(l), c)
    {
      WithTeamTally(st, id, league, InLeague(l), c);
    }
  }

  lemma BumpSound(st: Standings, id: string, e: Entry)
    requires Sound(st) && id in st.teams && e.Valid() && !e.Mirrored()
    ensures Sound(Bump(st, id, e))
  {
    var r := Bump(st, id, e);
    forall l, c: Counter | l in r.leagues && c.Mirrored()
      ensures r.leagues[l].Get(c) == Tally(r.teams, InLeague(l), c)
    {
      TallyApply(st.teams, id, e, InLeague(l), c);
      AmountSplit(e, c);
    }
  }

  lemma CreditSound(st: Standings, id: string, e: Entry)
    requires Sound(st) && id in st.teams && e.Valid() && e.Mirrored()
    ensures Sound(Credit(st, id, e))
  {
    var r := Credit(st, id, e);
    forall l, c: Counter | l in r.leagues && c.Mirrored()
      ensures r.leagues[l].Get(c) == Tally(r.teams, InLeague(l), c)
    {
      TallyApply(st.teams, id, e, InLeague(l), c);
    }
    forall l, c: Counter | l in r.leagues && !c.Mirrored()
      ensures r.leagues[l].Get(c) == 0
    {
      AmountSplit(e, c);
    }
  }

  lemma RegisteredSound(st: Standings, g: Game)
    requires Sound(st)
    ensures Sound(Registered(st, g))
  {
    var st1 := WithLeague(st, g.visitorLeague);
    WithLeagueSound(st, g.visitorLeague);
    var st2 := WithTeam(st1, g.visitor, g.visitorLeague);
    WithTeamSound(st1, g.visitor, g.visitorLeague);
    var st3 := WithLeague(st2, g.homeLeague);
    WithLeagueSound(st2, g.homeLeague);
    WithTeamSound(st3, g.home, g.homeLeague);
  }

  lemma DecidedSound(st: Standings, g: Game)
    requires Sound(st) && Ready(st, g)
    ensures Sound(Decided(st, g))
  {
    var st1 := Bump(st, g.home, Played);
    BumpSound(st, g.home, Played);
    var st2 := Bump(st1, g.visitor, Played);
    BumpSound(st1, g.visitor, Played);
    match Winner(g)
    case HomeWins =>
      BumpSound(st2, g.home, Won);
      BumpSound(Bump(st2, g.home, Won), g.visitor, Lost);
    case VisitorWins =>
      BumpSound(st2, g.home, Lost);
      BumpSound(Bump(st2, g.home, Lost), g.visitor, Won);
    case Tie =>
  }

  lemma RunsCreditedSound(st: Standings, g: Game)
    requires Sound(st) && Ready(st, g)
    ensures Sound(RunsCredited(st, g))
  {
    var st1 := Credit(st, g.visitor, Scored(g.visitorScore));
    CreditSound(st, g.visitor, Scored(g.visitorScore));
    var st2 := Credit(st1, g.visitor, Allowed(g.homeScore));
    CreditSound(st1, g.visitor, Allowed(g.homeScore));
    var st3 := Credit(st2, g.home, Scored(g.homeScore));
    CreditSound(st2, g.home, Scored(g.homeScore));
    CreditSound(st3, g.home, Allowed(g.visitorScore));
  }

  lemma BaseRunsCreditedSound(st: Standings, g: Game)
    requires Sound(st) && Ready(st, g) && Complete(g)
    ensures Sound(BaseRunsCredited(st, g))
  {
    var st1 := Credit(st, g.visitor, BaseRunsFor(OffenseSide, g.visitorOffense));
    CreditSound(st, g.visitor, BaseRunsFor(OffenseSide, g.visitorOffense));
    var st2 := Credit(st1, g.visitor, BaseRunsFor(DefenseSide, g.homeOffense));
    CreditSound(st1, g.visitor, BaseRunsFor(DefenseSide, g.homeOffense));
    var st3 := Credit(st2, g.home, BaseRunsFor(OffenseSide, g.homeOffense));
    CreditSound(st2, g.home, BaseRunsFor(OffenseSide, g.homeOffense));
    CreditSound(st3, g.home, BaseRunsFor(DefenseSide, g.visitorOffense));
  }

  /**
   * After `add_game` every league's runs and BaseRuns components are still
   * the sums over its teams, and every team still names an existing league.
   */
  lemma TalliedSound(st: Standings, g: Game)
    requires Sound(st) && Complete(g)
    ensures Sound(Tallied(st, g))
  {
    var st1 := Registered(st, g);
    RegisteredSound(st, g);
    var st2 := Decided(st1, g);
    DecidedSound(st1, g);
    var st3 := RunsCredited(st2, g);
    RunsCreditedSound(st2, g);
    BaseRunsCreditedSound(st3, g);
  }

  // ---------------------------------------------------------------------
  // What each stage of `add_game` adds
  // ---------------------------------------------------------------------

  /** What one update aimed at `target` adds to team `id`'s counter. */
  function On(id: string, target: string, e: Entry, c: Counter): nat
    requires e.Valid()
  {
    if id == target then Amount(e, c) else 0
  }

  /** The games played, wins and losses handed out, summed over all teams. */
  function DecidedAmount(g: Game, c: Counter): nat {
    2 * Amount(Played, c) + (if Winner(g) == Tie then 0 else Amount(Won, c) + Amount(Lost, c))
  }

  /** The games played, wins and losses handed to team `id`. */
  function DecidedShare(g: Game, id: string, c: Counter): nat {
    On(id, g.home, Played, c) + On(id, g.visitor, Played, c)
    + match Winner(g)
      case HomeWins => On(id, g.home, Won, c) + On(id, g.visitor, Lost, c)
      case VisitorWins => On(id, g.home, Lost, c) + On(id, g.visitor, Won, c)
      case Tie => 0
  }

  function RunsAmount(g: Game, c: Counter): nat {
    Amount(Scored(g.visitorScore), c) + Amount(Allowed(g.homeScore), c)
    + Amount(Scored(g.homeScore), c) + Amount(Allowed(g.visitorScore), c)
  }

  function RunsShare(g: Game, id: string, c: Counter): nat {
    On(id, g.visitor, Scored(g.visitorScore), c) + On(id, g.visitor, Allowed(g.homeScore), c)
    + On(id, g.home, Scored(g.homeScore), c) + On(id, g.home, Allowed(g.visitorScore), c)
  }

  function BaseRunsAmount(g: Game, c: Counter): nat
    requires Complete(g)
  {
    Amount(BaseRunsFor(OffenseSide, g.visitorOffense), c) + Amount(BaseRunsFor(DefenseSide, g.homeOffense), c)
    + Amount(BaseRunsFor(OffenseSide, g.homeOffense), c) + Amount(BaseRunsFor(DefenseSide, g.visitorOffense), c)
  }

  function BaseRunsShare(g: Game, id: string, c: Counter): nat
    requires Complete(g)
  {
    On(id, g.visitor, BaseRunsFor(OffenseSide, g.visitorOffense), c)
    + On(id, g.visitor, BaseRunsFor(DefenseSide, g.homeOffense), c)
    + On(id, g.home, BaseRunsFor(OffenseSide, g.homeOffense), c)
    + On(id, g.home, BaseRunsFor(DefenseSide, g.visitorOffense), c)
  }

  /** The three stages together hand out exactly what the game gives both sides. */
  lemma AmountsAddUp(g: Game, c: Counter)
    requires Complete(g)
    ensures DecidedAmount(g, c) + RunsAmount(g, c) + BaseRunsAmount(g, c) == GameTotal(g, c)
  {
  }

  /** The decision steps hand a team its share of games, wins and losses, and nothing else. */
  lemma DecidedShareIs(g: Game, id: string, c: Counter)
    requires Complete(g)
    ensures DecidedShare(g, id, c) == if c.Mirrored() then 0 else TeamShare(g, id, c)
  {
  }

  /** The run steps hand a team its share of runs scored and allowed, and nothing else. */
  lemma RunsShareIs(g: Game, id: string, c: Counter)
    requires Complete(g)
    ensures RunsShare(g, id, c) == if c.RunsScored? || c.RunsAllowed? then TeamShare(g, id, c) else 0
  {
  }

  /** The BaseRuns steps hand a team its share of both BaseRuns lines, and nothing else. */
  lemma BaseRunsShareIs(g: Game, id: string, c: Counter)
    requires Complete(g)
    ensures BaseRunsShare(g, id, c) == if c.Offense? || c.Defense? then TeamShare(g, id, c) else 0
  {
  }

  /** The three stages together hand team `id` exactly its share of the game. */
  lemma SharesAddUp(g: Game, id: string, c: Counter)
    requires Complete(g)
    ensures DecidedShare(g, id, c) + RunsShare(g, id, c) + BaseRunsShare(g, id, c) == TeamShare(g, id, c)
  {
    DecidedShareIs(g, id, c);
    RunsShareIs(g, id, c);
    BaseRunsShareIs(g, id, c);
  }

  // ---------------------------------------------------------------------
  // League-wide totals
  // ---------------------------------------------------------------------

  lemma RegisteredTotal(st: Standings, g: Game, c: Counter)
    requires Linked(st)
    ensures Tally(Registered(st, g).teams, AllTeams, c) == Tally(st.teams, AllTeams, c)
  {
    var st1 := WithLeague(st, g.visitorLeague);
    var st2 := WithTeam(st1, g.visitor, g.visitorLeague);
    WithTeamTally(st1, g.visitor, g.visitorLeague, AllTeams, c);
    var st3 := WithLeague(st2, g.homeLeague);
    WithTeamTally(st3, g.home, g.homeLeague, AllTeams, c);
  }

  lemma BumpTotal(st: Standings, id: string, e: Entry, c: Counter)
    requires id in st.teams && e.Valid()
    ensures Tally(Bump(st, id, e).teams, AllTeams, c) == Tally(st.teams, AllTeams, c) + Amount(e, c)
  {
    TallyApply(st.teams, id, e, AllTeams, c);
  }

  lemma CreditTotal(st: Standings, id: string, e: Entry, c: Counter)
    requires Linked(st) && id in st.teams && e.Valid()
    ensures Tally(Credit(st, id, e).teams, AllTeams, c) == Tally(st.teams, AllTeams, c) + Amount(e, c)
  {
    TallyApply(st.teams, id, e, AllTeams, c);
  }

  lemma DecidedTotal(st: Standings, g: Game, c: Counter)
    requires Ready(st, g)
    ensures Tally(Decided(st, g).teams, AllTeams, c) == Tally(st.teams, AllTeams, c) + DecidedAmount(g, c)
  {
    var st1 := Bump(st, g.home, Played);
    BumpTotal(st, g.home, Played, c);
    var st2 := Bump(st1, g.visitor, Played);
    BumpTotal(st1, g.visitor, Played, c);
    match Winner(g)
    case HomeWins =>
      var st3 := Bump(st2, g.home, Won);
      BumpTotal(st2, g.home, Won, c);
      BumpTotal(st3, g.visitor, Lost, c);
    case VisitorWins =>
      var st3 := Bump(st2, g.home, Lost);
      BumpTotal(st2, g.home, Lost, c);
      BumpTotal(st3, g.visitor, Won, c);
    case Tie =>
  }

  lemma RunsCreditedTotal(st: Standings, g: Game, c: Counter)
    requires Ready(st, g)
    ensures Tally(RunsCredited(st, g).teams, AllTeams, c) == Tally(st.teams, AllTeams, c) + RunsAmount(g, c)
  {
    var st1 := Credit(st, g.visitor, Scored(g.visitorScore));
    CreditTotal(st, g.visitor, Scored(g.visitorScore), c);
    var st2 := Credit(st1, g.visitor, Allowed(g.homeScore));
    CreditTotal(st1, g.visitor, Allowed(g.homeScore), c);
    var st3 := Credit(st2, g.home, Scored(g.homeScore));
    CreditTotal(st2, g.home, Scored(g.homeScore), c);
    CreditTotal(st3, g.home, Allowed(g.visitorScore), c);
  }

  lemma BaseRunsCreditedTotal(st: Standings, g: Game, c: Counter)
    requires Ready(st, g) && Complete(g)
    ensures Tally(BaseRunsCredited(st, g).teams, AllTeams, c)
         == Tally(st.teams, AllTeams, c) + BaseRunsAmount(g, c)
  {
    var st1 := Credit(st, g.visitor, BaseRunsFor(OffenseSide, g.visitorOffense));
    CreditTotal(st, g.visitor, BaseRunsFor(OffenseSide, g.visitorOffense), c);
    var st2 := Credit(st1, g.visitor, BaseRunsFor(DefenseSide, g.homeOffense));
    CreditTotal(st1, g.visitor, BaseRunsFor(DefenseSide, g.homeOffense), c);
    var st3 := Credit(st2, g.home, BaseRunsFor(OffenseSide, g.homeOffense));
    CreditTotal(st2, g.home, BaseRunsFor(OffenseSide, g.homeOffense), c);
    CreditTotal(st3, g.home, BaseRunsFor(DefenseSide, g.visitorOffense), c);
  }

  /** One `add_game` adds to each counter, summed over all teams, what the game gives both sides. */
  lemma TalliedTotal(st: Standings, g: Game, c: Counter)
    requires Linked(st) && Complete(g)
    ensures Tally(Tallied(st, g).teams, AllTeams, c) == Tally(st.teams, AllTeams, c) + GameTotal(g, c)
  {
    var st1 := Registered(st, g);
    RegisteredTotal(st, g, c);
    var st2 := Decided(st1, g);
    DecidedTotal(st1, g, c);
    var st3 := RunsCredited(st2, g);
    RunsCreditedTotal(st2, g, c);
    BaseRunsCreditedTotal(st3, g, c);
    AmountsAddUp(g, c);
  }

  /** Adding what a game gives both sides to every counter keeps the totals balanced. */
  lemma GameKeepsBalance(st: Standings, r: Standings, g: Game)
    requires Complete(g) && Balanced(st)
    requires forall c :: Tally(r.teams, AllTeams, c) == Tally(st.teams, AllTeams, c) + GameTotal(g, c)
    ensures Balanced(r)
  {
    assert Tally(r.teams, AllTeams, RunsScored) == Tally(st.teams, AllTeams, RunsScored) + GameTotal(g, RunsScored);
    assert Tally(r.teams, AllTeams, RunsAllowed) == Tally(st.teams, AllTeams, RunsAllowed) + GameTotal(g, RunsAllowed);
    assert Tally(r.teams, AllTeams, Wins) == Tally(st.teams, AllTeams, Wins) + GameTotal(g, Wins);
    assert Tally(r.teams, AllTeams, Losses) == Tally(st.teams, AllTeams, Losses) + GameTotal(g, Losses);
    forall k
      ensures Tally(r.teams, AllTeams, Offense(k)) == Tally(r.teams, AllTeams, Defense(k))
    {
      assert Tally(r.teams, AllTeams, Offense(k)) == Tally(st.teams, AllTeams, Offense(k)) + GameTotal(g, Offense(k));
      assert Tally(r.teams, AllTeams, Defense(k)) == Tally(st.teams, AllTeams, Defense(k)) + GameTotal(g, Defense(k));
    }
  }

  /**
   * `add_game` keeps the season balanced: the runs it credits as scored
   * equal those it credits as allowed, it hands out as many wins as losses,
   * and each offense line is counted once on offense and once on defense.
   */
  lemma TalliedBalanced(st: Standings, g: Game)
    requires Linked(st) && Complete(g) && Balanced(st)
    ensures Balanced(Tallied(st, g))
  {
    forall c
      ensures Tally(Tallied(st, g).teams, AllTeams, c) == Tally(st.teams, AllTeams, c) + GameTotal(g, c)
    {
      TalliedTotal(st, g, c);
    }
    GameKeepsBalance(st, Tallied(st, g), g);
  }

  // ---------------------------------------------------------------------
  // One team at a time
  // ---------------------------------------------------------------------

  /** The get-or-create calls add exactly the two teams, new ones at zero in the league the row names. */
  lemma RegisteredTeams(st: Standings, g: Game)
    requires Linked(st)
    ensures var r := Registered(st, g);
      && r.teams.Keys == st.teams.Keys + {g.visitor, g.home}
      && (forall t :: t in st.teams ==> r.teams[t] == st.teams[t])
      && (g.visitor !in st.teams ==> r.teams[g.visitor] == NewTeam(g.visitor, Some(g.visitorLeague)))
      && (g.home !in st.teams && g.home != g.visitor ==>
            r.teams[g.home] == NewTeam(g.home, Some(g.homeLeague)))
  {
  }

  lemma BumpTeam(st: Standings, target: string, e: Entry, id: string, c: Counter)
    requires target in st.teams && id in st.teams && e.Valid()
    ensures Bump(st, target, e).teams[id].Get(c) == st.teams[id].Get(c) + On(id, target, e, c)
    ensures Bump(st, target, e).teams[id].league == st.teams[id].league
  {
  }

  lemma CreditTeam(st: Standings, target: string, e: Entry, id: string, c: Counter)
    requires Linked(st) && target in st.teams && id in st.teams && e.Valid()
    ensures Credit(st, target, e).teams[id].Get(c) == st.teams[id].Get(c) + On(id, target, e, c)
    ensures Credit(st, target, e).teams[id].league == st.teams[id].league
  {
  }

  lemma DecidedTeam(st: Standings, g: Game, id: string, c: Counter)
    requires Ready(st, g) && id in st.teams
    ensures Decided(st, g).teams[id].Get(c) == st.teams[id].Get(c) + DecidedShare(g, id, c)
    ensures Decided(st, g).teams[id].league == st.teams[id].league
  {
    var st1 := Bump(st, g.home, Played);
    BumpTeam(st, g.home, Played, id, c);
    var st2 := Bump(st1, g.visitor, Played);
    BumpTeam(st1, g.visitor, Played, id, c);
    match Winner(g)
    case HomeWins =>
      var st3 := Bump(st2, g.home, Won);
      BumpTeam(st2, g.home, Won, id, c);
      BumpTeam(st3, g.visitor, Lost, id, c);
    case VisitorWins =>
      var st3 := Bump(st2, g.home, Lost);
      BumpTeam(st2, g.home, Lost, id, c);
      BumpTeam(st3, g.visitor, Won, id, c);
    case Tie =>
  }

  lemma RunsCreditedTeam(st: Standings, g: Game, id: string, c: Counter)
    requires Ready(st, g) && id in st.teams
    ensures RunsCredited(st, g).teams[id].Get(c) == st.teams[id].Get(c) + RunsShare(g, id, c)
    ensures RunsCredited(st, g).teams[id].league == st.teams[id].league
  {
    var st1 := Credit(st, g.visitor, Scored(g.visitorScore));
    CreditTeam(st, g.visitor, Scored(g.visitorScore), id, c);
    var st2 := Credit(st1, g.visitor, Allowed(g.homeScore));
    CreditTeam(st1, g.visitor, Allowed(g.homeScore), id, c);
    var st3 := Credit(st2, g.home, Scored(g.homeScore));
    CreditTeam(st2, g.home, Scored(g.homeScore), id, c);
    CreditTeam(st3, g.home, Allowed(g.visitorScore), id, c);
  }

  lemma BaseRunsCreditedTeam(st: Standings, g: Game, id: string, c: Counter)
    requires Ready(st, g) && Complete(g) && id in st.teams
    ensures BaseRunsCredited(st, g).teams[id].Get(c) == st.teams[id].Get(c) + BaseRunsShare(g, id, c)
    ensures BaseRunsCredited(st, g).teams[id].league == st.teams[id].league
  {
    var st1 := Credit(st, g.visitor, BaseRunsFor(OffenseSide, g.visitorOffense));
    CreditTeam(st, g.visitor, BaseRunsFor(OffenseSide, g.visitorOffense), id, c);
    var st2 := Credit(st1, g.visitor, BaseRunsFor(DefenseSide, g.homeOffense));
    CreditTeam(st1, g.visitor, BaseRunsFor(DefenseSide, g.homeOffense), id, c);
    var st3 := Credit(st2, g.home, BaseRunsFor(OffenseSide, g.homeOffense));
    CreditTeam(st2, g.home, BaseRunsFor(OffenseSide, g.homeOffense), id, c);
    CreditTeam(st3, g.home, BaseRunsFor(DefenseSide, g.visitorOffense), id, c);
  }

  /** The updates after the get-or-create calls give a registered team exactly its share of the game. */
  lemma CreditedTeam(st: Standings, g: Game, id: string, c: Counter)
    requires Ready(st, g) && Complete(g) && id in st.teams
    ensures Credited(st, g).teams[id].Get(c) == st.teams[id].Get(c) + TeamShare(g, id, c)
    ensures Credited(st, g).teams[id].league == st.teams[id].league
  {
    var st2 := Decided(st, g);
    DecidedTeam(st, g, id, c);
    var st3 := RunsCredited(st2, g);
    RunsCreditedTeam(st2, g, id, c);
    BaseRunsCreditedTeam(st3, g, id, c);
    SharesAddUp(g, id, c);
  }

  /**
   * After `add_game` every counter of every registered team has grown by
   * exactly what the game gives it (nothing for a team not in the game),
   * and no team's league has changed.
   */
  lemma TalliedTeam(st: Standings, g: Game, id: string, c: Counter)
    requires Linked(st) && Complete(g)
    requires id in Tallied(st, g).teams
    ensures Tallied(st, g).teams[id].Get(c) == Before(st, id, c) + TeamShare(g, id, c)
    ensures id in st.teams ==> Tallied(st, g).teams[id].league == st.teams[id].league
  {
    var st1 := Registered(st, g);
    assert Tallied(st, g) == Credited(st1, g);
    KeyIn(Tallied(st, g).teams, st1.teams.Keys, id);
    RegisteredBefore(st, g, id, c);
    CreditedTeam(st1, g, id, c);
  }

  lemma BumpOther(st: Standings, target: string, e: Entry, id: string)
    requires target in st.teams && id in st.teams && id != target && e.Valid()
    ensures Bump(st, target, e).teams[id] == st.teams[id]
  {
  }

  lemma CreditOther(st: Standings, target: string, e: Entry, id: string)
    requires Linked(st) && target in st.teams && id in st.teams && id != target && e.Valid()
    ensures Credit(st, target, e).teams[id] == st.teams[id]
  {
  }

  lemma DecidedOther(st: Standings, g: Game, id: string)
    requires Ready(st, g) && id in st.teams && id != g.visitor && id != g.home
    ensures Decided(st, g).teams[id] == st.teams[id]
  {
    var st1 := Bump(st, g.home, Played);
    BumpOther(st, g.home, Played, id);
    var st2 := Bump(st1, g.visitor, Played);
    BumpOther(st1, g.visitor, Played, id);
    match Winner(g)
    case HomeWins =>
      var st3 := Bump(st2, g.home, Won);
      BumpOther(st2, g.home, Won, id);
      BumpOther(st3, g.visitor, Lost, id);
    case VisitorWins =>
      var st3 := Bump(st2, g.home, Lost);
      BumpOther(st2, g.home, Lost, id);
      BumpOther(st3, g.visitor, Won, id);
    case Tie =>
  }

  lemma RunsCreditedOther(st: Standings, g: Game, id: string)
    requires Ready(st, g) && id in st.teams && id != g.visitor && id != g.home
    ensures RunsCredited(st, g).teams[id] == st.teams[id]
  {
    var st1 := Credit(st, g.visitor, Scored(g.visitorScore));
    CreditOther(st, g.visitor, Scored(g.visitorScore), id);
    var st2 := Credit(st1, g.visitor, Allowed(g.homeScore));
    CreditOther(st1, g.visitor, Allowed(g.homeScore), id);
    var st3 := Credit(st2, g.home, Scored(g.homeScore));
    CreditOther(st2, g.home, Scored(g.homeScore), id);
    CreditOther(st3, g.home, Allowed(g.visitorScore), id);
  }

  lemma BaseRunsCreditedOther(st: Standings, g: Game, id: string)
    requires Ready(st, g) && Complete(g) && id in st.teams && id != g.visitor && id != g.home
    ensures BaseRunsCredited(st, g).teams[id] == st.teams[id]
  {
    var st1 := Credit(st, g.visitor, BaseRunsFor(OffenseSide, g.visitorOffense));
    CreditOther(st, g.visitor, BaseRunsFor(OffenseSide, g.visitorOffense), id);
    var st2 := Credit(st1, g.visitor, BaseRunsFor(DefenseSide, g.homeOffense));
    CreditOther(st1, g.visitor, BaseRunsFor(DefenseSide, g.homeOffense), id);
    var st3 := Credit(st2, g.home, BaseRunsFor(OffenseSide, g.homeOffense));
    CreditOther(st2, g.home, BaseRunsFor(OffenseSide, g.homeOffense), id);
    CreditOther(st3, g.home, BaseRunsFor(DefenseSide, g.visitorOffense), id);
  }

  lemma CreditedOther(st: Standings, g: Game, id: string)
    requires Ready(st, g) && Complete(g) && id in st.teams && id != g.visitor && id != g.home
    ensures Credited(st, g).teams[id] == st.teams[id]
  {
    var st2 := Decided(st, g);
    DecidedOther(st, g, id);
    var st3 := RunsCredited(st2, g);
    RunsCreditedOther(st2, g, id);
    BaseRunsCreditedOther(st3, g, id);
  }

  /** A team that is not in the game is left exactly as it was. */
  lemma TalliedOthers(st: Standings, g: Game, id: string)
    requires Linked(st) && Complete(g)
    requires id in st.teams && id != g.visitor && id != g.home
    ensures Tallied(st, g).teams[id] == st.teams[id]
  {
    RegisteredTeams(st, g);
    CreditedOther(Registered(st, g), g, id);
  }

  /** A game hands each team at most one decision per appearance, so records stay within games. */
  lemma GameKeepsRecords(st: Standings, r: Standings, g: Game)
    requires Complete(g) && Records(st)
    requires r.teams.Keys == st.teams.Keys + {g.visitor, g.home}
    requires forall id, c: Counter :: id in r.teams ==>
      r.teams[id].Get(c) == Before(st, id, c) + TeamShare(g, id, c)
    ensures Records(r)
  {
    forall id | id in r.teams
      ensures r.teams[id].wins + r.teams[id].losses <= r.teams[id].games
    {
      assert r.teams[id].Get(Wins) == Before(st, id, Wins) + TeamShare(g, id, Wins);
      assert r.teams[id].Get(Losses) == Before(st, id, Losses) + TeamShare(g, id, Losses);
      assert r.teams[id].Get(Games) == Before(st, id, Games) + TeamShare(g, id, Games);
    }
  }

  /** After the get-or-create calls a registered team's counters are what they were, or zero if it is new. */
  lemma RegisteredBefore(st: Standings, g: Game, id: string, c: Counter)
    requires Linked(st) && id in Registered(st, g).teams
    ensures Registered(st, g).teams[id].Get(c) == Before(st, id, c)
    ensures id in st.teams ==> Registered(st, g).teams[id].league == st.teams[id].league
  {
    RegisteredTeams(st, g);
    if id !in st.teams && id == g.visitor {
      assert Registered(st, g).teams[id] == NewTeam(g.visitor, Some(g.visitorLeague));
    } else if id !in st.teams {
      assert Registered(st, g).teams[id] == NewTeam(g.home, Some(g.homeLeague));
    }
  }

  lemma KeyInPair(m: map<string, Team>, keys: set<string>, x: string, y: string, id: string)
    requires m.Keys == keys + {x, y}
    ensures id in m <==> id in keys || id == x || id == y
  {
  }

  /** A team outside the game gets nothing from it. */
  lemma NoShare(g: Game, id: string, c: Counter)
    requires Complete(g) && id != g.visitor && id != g.home
    ensures TeamShare(g, id, c) == 0
  {
  }

  /**
   * Counting an unregistered team as zero, `add_game` adds to every
   * team's counter exactly what the game gives it.
   */
  lemma TalliedBefore(st: Standings, g: Game, id: string, c: Counter)
    requires Linked(st) && Complete(g)
    ensures Before(Tallied(st, g), id, c) == Before(st, id, c) + TeamShare(g, id, c)
  {
    KeyInPair(Tallied(st, g).teams, st.teams.Keys, g.visitor, g.home, id);
    if id in Tallied(st, g).teams {
      TalliedTeam(st, g, id, c);
    } else {
      NoShare(g, id, c);
    }
  }

  /** A team `add_game` registers gets the league the row lists it with, the visitor's first. */
  lemma TalliedNewcomer(st: Standings, g: Game, id: string)
    requires Linked(st) && Complete(g)
    requires id !in st.teams && (id == g.visitor || id == g.home)
    ensures Tallied(st, g).teams[id].league == Some(ListedLeague(g, id))
  {
    var st1 := Registered(st, g);
    RegisteredTeams(st, g);
    CreditedTeam(st1, g, id, Wins);
  }

  /** `add_game` keeps a registered team's league and gives a new team the league the game lists it with. */
  lemma TalliedLeague(st: Standings, g: Game, id: string)
    requires Linked(st) && Complete(g) && id in Tallied(st, g).teams
    ensures id in st.teams ==> Tallied(st, g).teams[id].league == st.teams[id].league
    ensures id !in st.teams ==> Tallied(st, g).teams[id].league == Some(ListedLeague(g, id))
  {
    if id in st.teams {
      TalliedTeam(st, g, id, Wins);
    } else {
      KeyInPair(Tallied(st, g).teams, st.teams.Keys, g.visitor, g.home, id);
      TalliedNewcomer(st, g, id);
    }
  }

  /** A key of a map whose key set is known. */
  lemma KeyIn(m: map<string, Team>, keys: set<string>, id: string)
    requires m.Keys == keys
    ensures id in m <==> id in keys
  {
  }

  /** `TalliedTeam` for every registered team and counter at once. */
  lemma TalliedGrowth(st: Standings, g: Game)
    requires Linked(st) && Complete(g)
    ensures forall id, c: Counter :: id in Tallied(st, g).teams ==>
      Tallied(st, g).teams[id].Get(c) == Before(st, id, c) + TeamShare(g, id, c)
  {
    var r := Tallied(st, g);
    forall id, c: Counter | id in r.teams
      ensures r.teams[id].Get(c) == Before(st, id, c) + TeamShare(g, id, c)
    {
      TalliedTeam(st, g, id, c);
    }
  }

  /** `add_game` keeps every team's decisions within its games. */
  lemma TalliedRecords(st: Standings, g: Game)
    requires Linked(st) && Complete(g) && Records(st)
    ensures Records(Tallied(st, g))
  {
    TalliedGrowth(st, g);
    GameKeepsRecords(st, Tallied(st, g), g);
  }
}
