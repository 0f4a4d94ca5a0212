/**
 * The converter's `Schedule` object: the list of `(date, visitor, home)`
 * triples it writes out for the simulator.  `add_game` skips an entry in
 * which either team is missing.
 */
module Schedules {
  import opened Wrappers

  /** One entry handed to `Schedule.add_game`; a team id may be missing (None). */
  datatype Listing = Listing(date: string, visitor: Option<string>, home: Option<string>)
  {
    /** Both teams are present, so the entry goes into the schedule. */
    predicate Listed() {
      visitor.Some? && home.Some?
    }
  }

  /** One `(date, visitor, home)` triple of the schedule. */
  datatype Fixture = Fixture(date: string, visitor: string, home: string)

  /** The triple an entry with both teams becomes. */
  function FixtureOf(l: Listing): (f: Fixture)
    requires l.Listed()
    ensures Some(f.visitor) == l.visitor && Some(f.home) == l.home && f.date == l.date
  {
    Fixture(l.date, l.visitor.value, l.home.value)
  }

  /** The fixtures of a list of entries: one per entry with both teams, in the entries' order. */
  function Fixtures(entries: seq<Listing>): (fs: seq<Fixture>)
    ensures |fs| <= |entries|
  {
    if entries == [] then []
    else
      var last := entries[|entries| - 1];
      Fixtures(entries[..|entries| - 1]) + (if last.Listed() then [FixtureOf(last)] else [])
  }

  /** The fixtures of two lists of entries are those of the first followed by those of the second. */
  lemma {:induction false} FixturesAppend(a: seq<Listing>, b: seq<Listing>)
    ensures Fixtures(a + b) == Fixtures(a) + Fixtures(b)
  {
    if b == [] {
      assert a + b == a;
    } else {
      var b' := b[..|b| - 1];
      assert (a + b)[..|a + b| - 1] == a + b';
      assert (a + b)[|a + b| - 1] == b[|b| - 1];
      FixturesAppend(a, b');
    }
  }

  /** Every fixture comes from an entry with both teams. */
  lemma {:induction false} FixturesSound(entries: seq<Listing>, j: nat)
    requires j < |Fixtures(entries)|
    ensures exists i :: 0 <= i < |entries| && entries[i].Listed() && FixtureOf(entries[i]) == Fixtures(entries)[j]
  {
    var prefix := entries[..|entries| - 1];
    var last := entries[|entries| - 1];
    if j < |Fixtures(prefix)| {
      FixturesSound(prefix, j);
      var i :| 0 <= i < |prefix| && prefix[i].Listed() && FixtureOf(prefix[i]) == Fixtures(prefix)[j];
      assert entries[i] == prefix[i];
    } else {
      assert last.Listed() && Fixtures(entries)[j] == FixtureOf(last);
    }
  }

  /** Every entry with both teams has its fixture in the schedule. */
  lemma {:induction false} FixturesComplete(entries: seq<Listing>, i: nat)
    requires i < |entries| && entries[i].Listed()
    ensures FixtureOf(entries[i]) in Fixtures(entries)
  {
    var prefix := entries[..|entries| - 1];
    if i < |prefix| {
      assert prefix[i] == entries[i];
      FixturesComplete(prefix, i);
    }
  }

  /** When no team is ever missing, the schedule has one fixture per entry, entry by entry. */
  lemma {:induction false} FixturesAllListed(entries: seq<Listing>)
    requires forall i :: 0 <= i < |entries| ==> entries[i].Listed()
    ensures |Fixtures(entries)| == |entries|
    ensures forall i :: 0 <= i < |entries| ==> Fixtures(entries)[i] == FixtureOf(entries[i])
  {
    if entries != [] {
      var prefix := entries[..|entries| - 1];
      FixturesAllListed(prefix);
    }
  }

  /** Entries that each lack a team give an empty schedule. */
  lemma {:induction false} FixturesNoneListed(entries: seq<Listing>)
    requires forall i :: 0 <= i < |entries| ==> !entries[i].Listed()
    ensures Fixtures(entries) == []
  {
    if entries != [] {
      var prefix := entries[..|entries| - 1];
      FixturesNoneListed(prefix);
    }
  }

  class Schedule {
    /** The triples appended so far (`self.schedule`). */
    var schedule: seq<Fixture>
    /** The entries handed to `add_game` so far; kept for the proof only. */
    ghost var entries: seq<Listing>

    /** The schedule holds the fixtures of the entries handed in. */
    ghost predicate Valid()
      reads this
    {
      schedule == Fixtures(entries)
    }

    /** `Schedule.__init__`: an empty schedule. */
    constructor()
      ensures schedule == [] && entries == [] && Valid()
    {
      schedule := [];
      entries := [];
    }

    /**
     * `Schedule.add_game`: appends the entry's triple when both of its teams
     * are present, and otherwise leaves the schedule as it was.
     */
    method AddGame(game: Listing)
      requires Valid()
      modifies this
      ensures game.Listed() ==> schedule == old(schedule) + [FixtureOf(game)]
      ensures !game.Listed() ==> schedule == old(schedule)
      ensures entries == old(entries) + [game] && Valid()
    {
      entries := entries + [game];
      assert entries[..|entries| - 1] == old(entries);
      if game.visitor == None || game.home == None {
        return;
      }
      schedule := schedule + [Fixture(game.date, game.visitor.value, game.home.value)];
    }
  }
}
