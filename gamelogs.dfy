/**
 * One game-log row of the converter (`Game` in convert_retrosheet.py): the
 * two teams and their leagues, the final score, and each side's offense
 * line, and the three-way result of the game.
 */
module GameLogs {

  /**
   * A cell of the game log after `int()` has read it: an empty cell, or the
   * number written in it.
   */
  datatype Field = Blank | Num(value: nat)

  /** The columns of a game-log row the converter reads, already split out. */
  datatype GameLog = GameLog(visitor: string, visitorLeague: string,
                             home: string, homeLeague: string,
                             visitorScore: nat, homeScore: nat,
                             visitorOffense: seq<Field>, homeOffense: seq<Field>)

  /** Each offense line is the row's columns 21..37 or 49..65. */
  const OffenseWidth: nat := 17

  /** A game as the converter holds it once the row has been read. */
  datatype Game = Game(visitor: string, visitorLeague: string,
                       home: string, homeLeague: string,
                       visitorScore: nat, homeScore: nat,
                       visitorOffense: seq<nat>, homeOffense: seq<nat>)

  datatype Outcome = VisitorWins | HomeWins | Tie

  /** The value `intify` gives one cell: zero when the cell is empty. */
  function FieldValue(f: Field): nat {
    match f
    case Blank => 0
    case Num(n) => n
  }

  /** The list `intify` builds from a list of cells. */
  ghost function Intified(fields: seq<Field>): (values: seq<nat>)
    ensures |values| == |fields|
  {
    seq(|fields|, i requires 0 <= i < |fields| => FieldValue(fields[i]))
  }

  /**
   * `Game.intify`: one number per cell, in the same order; an empty cell
   * becomes 0 and any other cell its own value.
   */
  method Intify(fields: seq<Field>) returns (values: seq<nat>)
    ensures |values| == |fields|
    ensures forall i :: 0 <= i < |fields| ==>
              values[i] == (if fields[i].Blank? then 0 else fields[i].value)
    ensures values == Intified(fields)
  {
    values := [];
    for i := 0 to |fields|
      invariant |values| == i
      invariant forall j :: 0 <= j < i ==>
                  values[j] == (if fields[j].Blank? then 0 else fields[j].value)
    {
      if fields[i].Num? {
        values := values + [fields[i].value];
      } else {
        values := values + [0];
      }
    }
  }

  /** The game a row describes (`Game.__init__`). */
  ghost function GameOf(row: GameLog): (g: Game)
    ensures g.visitor == row.visitor && g.home == row.home
    ensures g.visitorLeague == row.visitorLeague && g.homeLeague == row.homeLeague
    ensures |g.visitorOffense| == |row.visitorOffense| && |g.homeOffense| == |row.homeOffense|
  {
    Game(row.visitor, row.visitorLeague, row.home, row.homeLeague,
         row.visitorScore, row.homeScore,
         Intified(row.visitorOffense), Intified(row.homeOffense))
  }

  /** `Game.__init__`: copies the teams, leagues and scores and intifies both offense lines. */
  method NewGame(row: GameLog) returns (g: Game)
    ensures g == GameOf(row)
    ensures g.visitor == row.visitor && g.home == row.home
    ensures g.visitorLeague == row.visitorLeague && g.homeLeague == row.homeLeague
    ensures g.visitorScore == row.visitorScore && g.homeScore == row.homeScore
    ensures |g.visitorOffense| == |row.visitorOffense| && |g.homeOffense| == |row.homeOffense|
  {
    var visitorOffense := Intify(row.visitorOffense);
    var homeOffense := Intify(row.homeOffense);
    g := Game(row.visitor, row.visitorLeague, row.home, row.homeLeague,
              row.visitorScore, row.homeScore, visitorOffense, homeOffense);
  }

  /**
   * `Game.winner`: the visitor wins exactly when it scored more, the home
   * team exactly when it scored more, and the game is a tie otherwise.
   */
  function Winner(g: Game): (w: Outcome)
    ensures w == VisitorWins <==> g.visitorScore > g.homeScore
    ensures w == HomeWins <==> g.homeScore > g.visitorScore
    ensures w == Tie <==> g.visitorScore == g.homeScore
  {
    if g.visitorScore > g.homeScore then VisitorWins
    else if g.homeScore > g.visitorScore then HomeWins
    else Tie
  }
}
