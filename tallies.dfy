/**
 * The counters that convert_retrosheet.py keeps for every team and every
 * league: won-lost record, runs, and the twelve BaseRuns components for the
 * team's offense and for the offense it faced.  The Python objects are
 * updated in place with `+=`; here each of them is a value record, and an
 * update is the record that results.
 */
module Tallies {
  import opened Wrappers

  /** The components of the BaseRuns run estimator, all starting at zero. */
  datatype BaseRuns = BaseRuns(bb: nat, cs: nat, gdp: nat, h: nat, hbp: nat, hr: nat,
                               ibb: nat, pa: nat, sb: nat, sf: nat, sh: nat, tb: nat)
  {
    /** The value of one component. */
    function Get(k: Component): nat {
      match k
      case BB => bb
      case CS => cs
      case GDP => gdp
      case H => h
      case HBP => hbp
      case HR => hr
      case IBB => ibb
      case PA => pa
      case SB => sb
      case SF => sf
      case SH => sh
      case TB => tb
    }
  }

  datatype Component = BB | CS | GDP | H | HBP | HR | IBB | PA | SB | SF | SH | TB

  const NoBaseRuns := BaseRuns(0, 0, 0, 0, 0, 0, 0, 0, 0, 0, 0, 0)

  /** `_add_baseruns` reads the offense fields at indices 0 to 14. */
  const FieldsRead: nat := 15

  /**
   * How much one game's offense line adds to each component: ten components
   * are copied from a game-log field, plate appearances and total bases are
   * derived from several fields.
   */
  function Increment(fields: seq<nat>, k: Component): nat
    requires |fields| >= FieldsRead
  {
    match k
    case H => fields[1]
    case HR => fields[4]
    case SH => fields[6]
    case SF => fields[7]
    case HBP => fields[8]
    case BB => fields[9]
    case IBB => fields[10]
    case SB => fields[12]
    case CS => fields[13]
    case GDP => fields[14]
    // at-bats plus sacrifice hits, sacrifice flies, hit by pitch and walks
    case PA => fields[0] + fields[6] + fields[7] + fields[8] + fields[9]
    // singles count once, doubles twice, triples three times, home runs four times
    case TB => fields[1] + fields[2] + 2 * fields[3] + 3 * fields[4]
  }

  /** Adds one game's offense line to a BaseRuns record (`Team._add_baseruns`). */
  function AddBaseRuns(b: BaseRuns, fields: seq<nat>): (r: BaseRuns)
    requires |fields| >= FieldsRead
    ensures forall k :: r.Get(k) == b.Get(k) + Increment(fields, k)
  {
    b.(h := b.h + fields[1],
       hr := b.hr + fields[4],
       sh := b.sh + fields[6],
       sf := b.sf + fields[7],
       hbp := b.hbp + fields[8],
       bb := b.bb + fields[9],
       ibb := b.ibb + fields[10],
       sb := b.sb + fields[12],
       cs := b.cs + fields[13],
       gdp := b.gdp + fields[14],
       pa := b.pa + (fields[0] + fields[6] + fields[7] + fields[8] + fields[9]),
       tb := b.tb + (fields[1] + fields[2] + fields[3] * 2 + fields[4] * 3))
  }

  /** The order in which two games' lines are added does not matter. */
  lemma AddBaseRunsCommutes(b: BaseRuns, x: seq<nat>, y: seq<nat>)
    requires |x| >= FieldsRead && |y| >= FieldsRead
    ensures AddBaseRuns(AddBaseRuns(b, x), y) == AddBaseRuns(AddBaseRuns(b, y), x)
  {
  }

  /**
   * A team, or a league (a league is a team without a league of its own,
   * as `League(Team)` is in the source).  `league` is the key of the
   * team's league in the season's league map.
   */
  datatype Team = Team(name: string, league: Option<string>,
                       wins: nat, losses: nat, games: nat,
                       runsScored: nat, runsAllowed: nat,
                       offense: BaseRuns, defense: BaseRuns)
  {
    /** The value of one counter. */
    function Get(c: Counter): nat {
      match c
      case Wins => wins
      case Losses => losses
      case Games => games
      case RunsScored => runsScored
      case RunsAllowed => runsAllowed
      case Offense(k) => offense.Get(k)
      case Defense(k) => defense.Get(k)
    }
  }

  /** Every counter a team carries. */
  datatype Counter = Wins | Losses | Games | RunsScored | RunsAllowed
                   | Offense(k: Component) | Defense(k: Component)
  {
    /** The counters that are added to the team's league as well as to the team. */
    predicate Mirrored() {
      !(Wins? || Losses? || Games?)
    }
  }

  /** A fresh team: every counter is zero (`Team.__init__`). */
  function NewTeam(name: string, league: Option<string>): (t: Team)
    ensures t.name == name && t.league == league
    ensures forall c :: t.Get(c) == 0
  {
    Team(name, league, 0, 0, 0, 0, 0, NoBaseRuns, NoBaseRuns)
  }

  /** A fresh league (`League.__init__`): a team record with no league. */
  function NewLeague(name: string): (l: Team)
    ensures l.name == name && l.league == None
    ensures forall c :: l.Get(c) == 0
  {
    NewTeam(name, None)
  }

  /** Which BaseRuns record `_add_baseruns` updates: 'baseruns_offense' or 'baseruns_defense'. */
  datatype Side = OffenseSide | DefenseSide

  /** One in-place update the season makes to a team record. */
  datatype Entry = Played | Won | Lost
                 | Scored(runs: nat) | Allowed(runs: nat)
                 | BaseRunsFor(side: Side, fields: seq<nat>)
  {
    predicate Valid() {
      BaseRunsFor? ==> |fields| >= FieldsRead
    }

    /** The updates the source also applies to the team's league. */
    predicate Mirrored() {
      Scored? || Allowed? || BaseRunsFor?
    }
  }

  /** How much an update adds to each counter: the reference table. */
  function Amount(e: Entry, c: Counter): nat
    requires e.Valid()
  {
    match e
    case Played => if c == Games then 1 else 0
    case Won => if c == Wins then 1 else 0
    case Lost => if c == Losses then 1 else 0
    case Scored(runs) => if c == RunsScored then runs else 0
    case Allowed(runs) => if c == RunsAllowed then runs else 0
    case BaseRunsFor(OffenseSide, fields) => if c.Offense? then Increment(fields, c.k) else 0
    case BaseRunsFor(DefenseSide, fields) => if c.Defense? then Increment(fields, c.k) else 0
  }

  /**
   * Applies one update to a team record: `games += 1`, `wins += 1`,
   * `losses += 1`, `scored`, `allowed` and `_add_baseruns` on one side.
   * Name and league are never touched, and every counter grows by exactly
   * the amount in the table.
   */
  function Apply(t: Team, e: Entry): (r: Team)
    requires e.Valid()
    ensures r.name == t.name && r.league == t.league
    ensures forall c :: r.Get(c) == t.Get(c) + Amount(e, c)
  {
    match e
    case Played => t.(games := t.games + 1)
    case Won => t.(wins := t.wins + 1)
    case Lost => t.(losses := t.losses + 1)
    case Scored(runs) => t.(runsScored := t.runsScored + runs)
    case Allowed(runs) => t.(runsAllowed := t.runsAllowed + runs)
    case BaseRunsFor(OffenseSide, fields) => t.(offense := AddBaseRuns(t.offense, fields))
    case BaseRunsFor(DefenseSide, fields) => t.(defense := AddBaseRuns(t.defense, fields))
  }

  /** A mirrored update leaves the won-lost record alone; the others touch nothing else. */
  lemma AmountSplit(e: Entry, c: Counter)
    requires e.Valid()
    ensures e.Mirrored() && !c.Mirrored() ==> Amount(e, c) == 0
    ensures !e.Mirrored() && c.Mirrored() ==> Amount(e, c) == 0
  {
  }

  /** Which teams a sum runs over: all of them, or those of one league. */
  datatype Scope = AllTeams | InLeague(id: string)

  predicate InScope(t: Team, s: Scope) {
    s.AllTeams? || t.league == Some(s.id)
  }

  /** What one team adds to a sum over a scope. */
  function Share(t: Team, s: Scope, c: Counter): nat {
    if InScope(t, s) then t.Get(c) else 0
  }

  /** The sum of one counter over the teams of a map that are in a scope. */
  ghost function Tally(m: map<string, Team>, s: Scope, c: Counter): nat
    decreases |m|
  {
    if m == map[] then 0
    else
      var id :| id in m;
      assert |m - {id}| == |m| - 1 by { assert (m - {id}).Keys == m.Keys - {id}; }
      Share(m[id], s, c) + Tally(m - {id}, s, c)
  }

  /** The sum may be split at any team, not only the one its definition picks. */
  lemma {:induction false} TallyWithout(m: map<string, Team>, id: string, s: Scope, c: Counter)
    requires id in m
    ensures Tally(m, s, c) == Share(m[id], s, c) + Tally(m - {id}, s, c)
    decreases |m|
  {
    var j :| j in m && Tally(m, s, c) == Share(m[j], s, c) + Tally(m - {j}, s, c);
    if j != id {
      assert (m - {j}).Keys == m.Keys - {j};
      assert (m - {id}).Keys == m.Keys - {id};
      TallyWithout(m - {j}, id, s, c);
      TallyWithout(m - {id}, j, s, c);
      assert m - {j} - {id} == m - {id} - {j};
    }
  }

  /** Replacing or inserting one team changes the sum by that team's difference. */
  lemma TallyUpdate(m: map<string, Team>, id: string, t: Team, s: Scope, c: Counter)
    ensures Tally(m[id := t], s, c) + (if id in m then Share(m[id], s, c) else 0)
         == Tally(m, s, c) + Share(t, s, c)
  {
    TallyWithout(m[id := t], id, s, c);
    assert m[id := t] - {id} == m - {id};
    if id in m {
      TallyWithout(m, id, s, c);
    } else {
      assert m - {id} == m;
    }
  }

  /** A scope that holds none of the map's teams sums to zero. */
  lemma {:induction false} TallyOutOfScope(m: map<string, Team>, s: Scope, c: Counter)
    requires forall id :: id in m ==> !InScope(m[id], s)
    ensures Tally(m, s, c) == 0
    decreases |m|
  {
    if m != map[] {
      var id :| id in m;
      TallyWithout(m, id, s, c);
      assert (m - {id}).Keys == m.Keys - {id};
      TallyOutOfScope(m - {id}, s, c);
    }
  }

  /** Applying an update to one team moves the sums whose scope holds it by the update's amount. */
  lemma TallyApply(m: map<string, Team>, id: string, e: Entry, s: Scope, c: Counter)
    requires id in m && e.Valid()
    ensures Tally(m[id := Apply(m[id], e)], s, c)
         == Tally(m, s, c) + (if InScope(m[id], s) then Amount(e, c) else 0)
  {
    TallyUpdate(m, id, Apply(m[id], e), s, c);
  }
}
