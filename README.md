# winsim: the season tally and the simulator's data model, in Dafny

winsim estimates how many games a baseball team "should" have won. It has
two parts, and this project models the exact, integer part of both.

- **The converter** (`convert_retrosheet.py`) reads Retrosheet game logs.
  Its `Season` object keeps a dictionary of teams and a dictionary of
  leagues. `Season.add_game` reads one game-log row. It registers both teams
  and their leagues (get-or-create), gives each team a game played, gives a
  win and a loss unless the game is tied, and credits runs scored and
  allowed. It also adds the twelve BaseRuns components of each side's
  offense line to that side's offense and to the other side's defense.
  Runs and BaseRuns are mirrored onto the team's league. Its `Schedule`
  object collects `(date, visitor, home)` triples, skipping entries that
  lack a team.
- **The simulator** (`winsim.ts`) turns the converter's output back into
  objects: a `Season` holding a list of `Team`s and a `Schedule` of `Game`s.

The modules follow the program:

- `Tallies` holds the counters of one team or league: the `BaseRuns`
  record, `_add_baseruns`, and every in-place update as an `Entry` with
  its reference table `Amount`.
- `GameLogs` holds the converter's `Game`: `intify` and `winner`.
- `Seasons` states `add_game` and its steps on values. `Standings` is the
  pair of dictionaries. It also defines the reference `TeamShare`/`GameTotal`
  (what one game gives a team) and the invariants:
  - `Sound`: every league is the sum of its teams.
  - `Balanced`: runs scored equal runs allowed, wins equal losses, and
    offense equals defense.
  - `Records`: wins + losses ≤ games.
- `SeasonLaws` proves what one `add_game` does.
- `ReplayLaws` proves what a whole season of rows does.
- `Retrosheet` holds the `Season` class. Its two dictionaries are
  fields updated in place, and every method is proved to reach the state
  the value model prescribes.
- `Schedules` holds the converter's `Schedule` class and the list of
  fixtures it must hold.
- `Winsim` holds the simulator's four classes.

A team's `league` is the key of its league in the league map, where the
source keeps a reference to the `League` object. A league is a team record
without a league, as `League(Team)` is in the source.

## Model

| member | source | states |
|---|---|---|
| Tallies.AddBaseRuns | convert_retrosheet.py:115-131 | every BaseRuns component grows by exactly its increment. h, hr, sh, sf, hbp, bb, ibb, sb, cs and gdp grow by fields 1, 4, 6, 7, 8, 9, 10, 12, 13 and 14. pa grows by fields 0+6+7+8+9. tb grows by fields 1+2+2·3+3·4. Nothing else changes |
| Tallies.AddBaseRunsCommutes | convert_retrosheet.py:115-131 | adding two games' lines gives the same record in either order |
| Tallies.NewTeam | convert_retrosheet.py:43-53 | a new team has the given name and league and every counter at zero |
| Tallies.NewLeague | convert_retrosheet.py:150-152 | a new league has no league of its own and every counter at zero |
| Tallies.Apply | convert_retrosheet.py:107-131 | one in-place update (games, wins, losses, runs scored, runs allowed, one BaseRuns side) leaves name and league alone. Every counter grows by exactly the amount in the reference table, so the other counters do not change |
| Tallies.AmountSplit | convert_retrosheet.py:207-225 | the updates mirrored onto the league (runs, BaseRuns) never touch games, wins or losses. The team-only updates (games, wins, losses) never touch runs or BaseRuns |
| GameLogs.Intify | convert_retrosheet.py:177-184 | the result has one value per cell, in the same order. A blank cell gives 0 and any other cell its own number |
| GameLogs.GameOf | convert_retrosheet.py:166-174 | the game keeps the row's teams and leagues; each offense line has one value per cell |
| GameLogs.NewGame | convert_retrosheet.py:166-174 | builds the game of the row, intifying both offense lines; teams, leagues and scores are copied |
| GameLogs.Winner | convert_retrosheet.py:186-191 | visitor iff the visitor scored more, home iff the home team scored more, tie iff the scores are equal; so exactly one holds |
| Seasons.WithLeague | convert_retrosheet.py:234-239 | an absent league is inserted with zero counters. Every league already present is unchanged. Teams are untouched and links stay intact |
| Seasons.WithTeam | convert_retrosheet.py:227-232 | an absent team is inserted with zero counters and the given league. A present team keeps its record, including its original league. Leagues are untouched |
| Seasons.Bump | convert_retrosheet.py:208-215 | an update to a team alone leaves the leagues and the set of teams unchanged |
| Seasons.Credit | convert_retrosheet.py:107-113 | an update to a team and its league leaves the sets of teams and leagues unchanged and keeps links intact |
| Seasons.Registered | convert_retrosheet.py:202-205 | after the four get-or-create calls both teams are present with intact links, and exactly the visitor and home ids have been added |
| Seasons.Decided | convert_retrosheet.py:207-215 | games, wins and losses change no team set and no league |
| Seasons.RunsCredited | convert_retrosheet.py:217-220 | crediting the scores keeps the team and league sets |
| Seasons.BaseRunsCredited | convert_retrosheet.py:222-225 | crediting the offense lines keeps the team and league sets |
| Seasons.Tallied | convert_retrosheet.py:199-225 | after add_game both teams are registered with intact links, and the team set has grown by exactly the visitor and home ids |
| Seasons.Replay | convert_retrosheet.py:347-351 | a fresh season fed the rows in order keeps every team linked to a league it holds |
| SeasonLaws.WithLeagueIdempotent | convert_retrosheet.py:234-239 | a second get_league with the same id changes nothing |
| SeasonLaws.WithTeamIdempotent | convert_retrosheet.py:227-232 | a second get_team with the same id changes nothing, whatever league it passes |
| SeasonLaws.WithLeagueSound | convert_retrosheet.py:234-239 | get_league keeps each league equal to the sum over its teams |
| SeasonLaws.WithTeamSound | convert_retrosheet.py:227-232 | get_team with a registered league keeps each league equal to the sum over its teams |
| SeasonLaws.BumpSound | convert_retrosheet.py:208-215 | a games, wins or losses update keeps the invariant; leagues keep no won-lost record |
| SeasonLaws.CreditSound | convert_retrosheet.py:107-113 | adding runs or a BaseRuns line to a team and its league keeps each league equal to the sum over its teams |
| SeasonLaws.TalliedSound | convert_retrosheet.py:199-225 | add_game keeps each league equal to the sum over its teams |
| SeasonLaws.BumpTotal | convert_retrosheet.py:208-215 | a team-only update raises the all-teams sum of each counter by its table amount |
| SeasonLaws.CreditTotal | convert_retrosheet.py:107-113 | a mirrored update raises the all-teams sum of each counter by its table amount |
| SeasonLaws.RegisteredTotal | convert_retrosheet.py:202-205 | registering teams adds nothing to any all-teams sum |
| SeasonLaws.DecidedTotal | convert_retrosheet.py:207-215 | the games/wins/losses block raises each all-teams sum by what it gives the two sides |
| SeasonLaws.RunsCreditedTotal | convert_retrosheet.py:217-220 | the runs block raises each all-teams sum by what it gives the two sides |
| SeasonLaws.BaseRunsCreditedTotal | convert_retrosheet.py:222-225 | the BaseRuns block raises each all-teams sum by what it gives the two sides |
| SeasonLaws.SharesAddUp | convert_retrosheet.py:207-225 | what the three blocks give one team adds up to the reference share of that team in the game |
| SeasonLaws.AmountsAddUp | convert_retrosheet.py:207-225 | what the three blocks give both sides adds up to the reference game total |
| SeasonLaws.TalliedTotal | convert_retrosheet.py:199-225 | add_game raises the all-teams sum of every counter by the game's total: 2 games, one win and one loss unless tied, both scores as scored and as allowed, both lines on offense and on defense |
| SeasonLaws.GameKeepsBalance | convert_retrosheet.py:207-225 | any state whose sums grew by a game's totals stays balanced |
| SeasonLaws.TalliedBalanced | convert_retrosheet.py:199-225 | add_game keeps total runs scored equal to total runs allowed, wins equal to losses, and each offense component equal to the defense one |
| SeasonLaws.BumpTeam | convert_retrosheet.py:208-215 | a team-only update moves only the target team's counter, by the table amount, and keeps every league link |
| SeasonLaws.CreditTeam | convert_retrosheet.py:107-113 | a mirrored update moves only the target team's counter, by the table amount, and keeps every league link |
| SeasonLaws.DecidedTeam | convert_retrosheet.py:207-215 | games +1 for each side, a win for the side that outscored the other, a loss for the other, none on a tie |
| SeasonLaws.RunsCreditedTeam | convert_retrosheet.py:217-220 | each side's runs scored grow by its own score and runs allowed by the other's |
| SeasonLaws.BaseRunsCreditedTeam | convert_retrosheet.py:222-225 | each side's offense grows by its own line and its defense by the other side's line |
| SeasonLaws.CreditedTeam | convert_retrosheet.py:207-225 | after registration, every counter of a team grows by exactly the reference share the game gives it |
| SeasonLaws.TalliedTeam | convert_retrosheet.py:199-225 | after add_game each counter of a team is its old value (0 if new) plus the game's share, and a team already present keeps its league |
| SeasonLaws.BumpOther | convert_retrosheet.py:208-215 | a team-only update leaves every other team's record unchanged |
| SeasonLaws.CreditOther | convert_retrosheet.py:107-113 | a mirrored update leaves every other team's record unchanged |
| SeasonLaws.DecidedOther | convert_retrosheet.py:207-215 | the games/wins/losses block leaves teams outside the game unchanged |
| SeasonLaws.RunsCreditedOther | convert_retrosheet.py:217-220 | the runs block leaves teams outside the game unchanged |
| SeasonLaws.BaseRunsCreditedOther | convert_retrosheet.py:222-225 | the BaseRuns block leaves teams outside the game unchanged |
| SeasonLaws.CreditedOther | convert_retrosheet.py:207-225 | the counting blocks leave teams outside the game unchanged |
| SeasonLaws.TalliedOthers | convert_retrosheet.py:199-225 | add_game leaves every team outside the game exactly as it was |
| SeasonLaws.RegisteredBefore | convert_retrosheet.py:202-205 | registration leaves every counter of a team at its old value (0 if new) and a present team's league unchanged |
| SeasonLaws.TalliedBefore | convert_retrosheet.py:199-225 | for every id, a counter after add_game is its old value plus the game's share (counting an absent team as 0) |
| SeasonLaws.TalliedNewcomer | convert_retrosheet.py:202-205 | a team first seen in this game gets the league the row lists it with |
| SeasonLaws.TalliedLeague | convert_retrosheet.py:202-205 | a present team keeps its league; a new one gets the league the row lists |
| SeasonLaws.TalliedGrowth | convert_retrosheet.py:199-225 | every team's every counter grows by exactly its share of the game |
| SeasonLaws.GameKeepsRecords | convert_retrosheet.py:207-215 | any state whose counters grew by a game's shares keeps wins + losses ≤ games |
| SeasonLaws.TalliedRecords | convert_retrosheet.py:207-215 | add_game keeps wins + losses ≤ games for every team |
| SeasonLaws.NoShare | convert_retrosheet.py:199-225 | a game gives nothing to a team that does not play in it |
| ReplayLaws.EmptyInvariants | convert_retrosheet.py:195-197 | a fresh season is sound, balanced and within records |
| ReplayLaws.ReplayInvariants | convert_retrosheet.py:347-351 | after any sequence of add_game calls every league is the sum of its teams, total runs scored equal total runs allowed, wins equal losses, and wins + losses ≤ games for every team |
| ReplayLaws.ReplayTotal | convert_retrosheet.py:347-351 | each all-teams sum after a season is the sum of the games' totals |
| ReplayLaws.GamesPlayed | convert_retrosheet.py:347-351 | the teams' games played add up to twice the number of rows |
| ReplayLaws.TotalGames | convert_retrosheet.py:208-209 | each row's games total is two |
| ReplayLaws.ReplayMembers | convert_retrosheet.py:347-351 | the season holds exactly the teams that appear in some row |
| ReplayLaws.ReplayCounts | convert_retrosheet.py:347-351 | each counter of a team after a season is the sum of its shares of each game, in order |
| ReplayLaws.ShareOverAbsent | convert_retrosheet.py:347-351 | a team that appears in no row gets nothing |
| ReplayLaws.ReplayLeague | convert_retrosheet.py:227-232 | a team keeps the league it was listed with in the first row it appeared in |
| Retrosheet.Season.constructor | convert_retrosheet.py:195-197 | a new season has no teams and no leagues |
| Retrosheet.Season.GetLeague | convert_retrosheet.py:234-239 | get-or-create on the league map; returns the stored league and keeps the object sound |
| Retrosheet.Season.GetTeam | convert_retrosheet.py:227-232 | get-or-create on the team map; returns the stored team, and keeps the object sound when the league is registered |
| Retrosheet.Season.Scored | convert_retrosheet.py:107-109 | runs scored grow by the runs on the team and on its league, nothing else changes, the object stays sound |
| Retrosheet.Season.Allowed | convert_retrosheet.py:111-113 | runs allowed grow by the runs on the team and on its league, nothing else changes, the object stays sound |
| Retrosheet.Season.AddBaseRunsOffense | convert_retrosheet.py:133-135 | the line is added to the offense of the team and of its league, and the object stays sound |
| Retrosheet.Season.AddBaseRunsDefense | convert_retrosheet.py:137-139 | the line is added to the defense of the team and of its league, and the object stays sound |
| Retrosheet.Season.AddGame | convert_retrosheet.py:199-225 | the object reaches exactly the tallied state of the value model. It stays sound, and it stays balanced and within records when it was before |
| Retrosheet.Season.Register | convert_retrosheet.py:202-205 | the four get-or-create calls in the source's order |
| Retrosheet.Season.Decide | convert_retrosheet.py:207-215 | games for both sides, then the win and the loss, or neither on a tie |
| Retrosheet.Season.CreditRuns | convert_retrosheet.py:217-220 | both scores, each as scored by one side and allowed by the other |
| Retrosheet.Season.CreditBaseRuns | convert_retrosheet.py:222-225 | each offense line on its own side's offense and the other side's defense |
| Retrosheet.Season.Played | convert_retrosheet.py:208-209 | the team's games grow by one and nothing else changes |
| Retrosheet.Season.Won | convert_retrosheet.py:210-215 | the team's wins grow by one and nothing else changes |
| Retrosheet.Season.Lost | convert_retrosheet.py:210-215 | the team's losses grow by one and nothing else changes |
| Schedules.FixtureOf | convert_retrosheet.py:249-251 | the triple holds the entry's date, visitor and home |
| Schedules.Fixtures | convert_retrosheet.py:246-251 | the fixtures of a list of entries are never more than the entries |
| Schedules.FixturesAppend | convert_retrosheet.py:246-251 | the fixtures of two lists in a row are the first's followed by the second's, so order is kept |
| Schedules.FixturesSound | convert_retrosheet.py:246-251 | every fixture is the triple of some entry with both teams |
| Schedules.FixturesComplete | convert_retrosheet.py:246-251 | every entry with both teams has its triple in the schedule |
| Schedules.FixturesAllListed | convert_retrosheet.py:246-251 | with no team missing, the schedule has one triple per entry, position by position |
| Schedules.FixturesNoneListed | convert_retrosheet.py:246-251 | entries that each lack a team give an empty schedule |
| Schedules.Schedule.constructor | convert_retrosheet.py:243-244 | a new schedule is empty |
| Schedules.Schedule.AddGame | convert_retrosheet.py:246-251 | appends exactly the entry's triple when both teams are present, and otherwise leaves the schedule unchanged. The schedule stays the fixtures of all entries handed in |
| Winsim.Cell | winsim.ts:7-9 | an element of a row is present exactly when the index is in range, and is then the row's element |
| Winsim.Game.constructor | winsim.ts:6-10 | date, away team and home team are the row's elements 0, 1 and 2 |
| Winsim.Schedule.constructor | winsim.ts:35-40 | one new game per row, as many as rows, in the rows' order, each built from its own row, all distinct |
| Winsim.Team.constructor | winsim.ts:52-60 | name, league, the three percentages, wins and losses are copied unchanged |
| Winsim.Season.CreateTeams | winsim.ts:22-29 | one new, distinct team per record, as many as records, in the records' order, each a copy of its record |
| Winsim.Season.constructor | winsim.ts:17-20 | the teams come only from the team records and the schedule only from the schedule rows, keeping length and order |

## Left out

- Floating point: `BaseRuns.raw`, `Team.win_percentage`,
  `calculate_pythagenpat`, `baseruns_percentage`, `baseruns_scored`,
  `baseruns_allowed` and the `to_precision` formatting in `csv_summary`.
  These are real-valued formulas that can divide by zero. In winsim.ts the
  three percentages are an abstract type that is only copied.
- I/O: `options`, `collect_files`, `open_maybe_zip`, `main`, the JSON and
  CSV summaries (`json_summary`, `csv_summary`, `Schedule.json_summary`),
  and in winsim.ts `init`, `load_season` and `pick_season` (JSON fetches and
  page building). winsim.js is compiled output of winsim.ts and is not part
  of this model. The read loop of `main` appears only as `Replay`.
- Parsing: Python's `int()` on the score and offense cells. A game-log row
  is modelled with the columns the converter reads already split out
  (`GameLog`). Scores and offense numbers are naturals, and an offense cell
  is either blank or a number. Nonnumeric cells (a `ValueError` in the
  source) and negative numbers are not modelled.
- Seasons.Readable: a row whose offense slice has fewer than 15 cells makes
  `_add_baseruns` raise `IndexError` partway through `add_game`, after
  earlier updates have already happened. The model makes 15 cells a
  precondition of `add_game` instead of modelling the half-finished update.
- Object references: a Python `Team` points to its `League` object, and
  `get_team` returns the team object that the caller then mutates. Here
  records are values in maps keyed by id, and every update re-reads the map.
  This gives the same result when the visitor and the home team are the
  same id, or share a league. The `Team` methods `scored`, `allowed`,
  `add_baseruns_offense` and `add_baseruns_defense` are methods of the
  season that name the team by id.
- Retrosheet.Season.AddGame: the four blocks of statements of `add_game` are
  four methods that it calls, in the source's order.
- Retrosheet.Season.GetTeam: it keeps the object sound only when the
  league passed is registered; `add_game` always registers it first.
- Winsim: `team_data: any` is modelled as a record with exactly the seven
  fields the constructor reads. JavaScript numbers for wins and losses are
  integers here. Indexing a schedule row past its end gives `undefined`,
  modelled as `None`.
