/** The user level ladder: five named levels, each with a minimum number of completed tasks
    and a minimum rating, and the rule that picks a user's level (`getUserLevel`). */
module Levels {

  datatype Level = Level(name: string, minTasks: int, minRating: real)

  /** `userLevels`, lowest first. */
  const UserLevels: seq<Level> := [
    Level("Task-K\U{FC}ken", 0, 0.0),
    Level("DoIt-Anf\U{E4}nger", 3, 3.0),
    Level("DoIt-Profi", 8, 3.5),
    Level("DoIt-Ninja", 15, 4.0),
    Level("Superheld:in", 25, 4.5)
  ]

  predicate Meets(level: Level, completedTasks: int, rating: real)
  {
    completedTasks >= level.minTasks && rating >= level.minRating
  }

  /** The length of the longest prefix of `table` whose every level is met. */
  function MetPrefix(table: seq<Level>, completedTasks: int, rating: real): (n: nat)
    ensures n <= |table|
    ensures forall i :: 0 <= i < n ==> Meets(table[i], completedTasks, rating)
    ensures n < |table| ==> !Meets(table[n], completedTasks, rating)
  {
    if table == [] || !Meets(table[0], completedTasks, rating) then 0
    else 1 + MetPrefix(table[1..], completedTasks, rating)
  }

  /** The position the ladder rule selects: the last level of the met prefix, or the first
      level when not even that one is met. */
  function LevelIndex(table: seq<Level>, completedTasks: int, rating: real): (i: nat)
    requires table != []
    ensures i < |table|
  {
    var n := MetPrefix(table, completedTasks, rating);
    if n == 0 then 0 else n - 1
  }

  /** The level `getUserLevel` reports. */
  function UserLevel(completedTasks: int, rating: real): Level
  {
    UserLevels[LevelIndex(UserLevels, completedTasks, rating)]
  }

  /** `getUserLevel`: walk the ladder from the bottom, remember each level that is met and stop
      at the first one that is not. */
  method GetUserLevel(completedTasks: int, rating: real) returns (level: Level)
    ensures level == UserLevel(completedTasks, rating)
    ensures level in UserLevels
  {
    level := UserLevels[0];
    var i := 0;
    while i < |UserLevels|
      invariant 0 <= i <= |UserLevels|
      invariant forall k :: 0 <= k < i ==> Meets(UserLevels[k], completedTasks, rating)
      invariant level == UserLevels[if i == 0 then 0 else i - 1]
    {
      if Meets(UserLevels[i], completedTasks, rating) {
        level := UserLevels[i];
      } else {
        break;
      }
      i := i + 1;
    }
  }

  /** Each level asks for at least as much as the one below it. */
  predicate Nondecreasing(table: seq<Level>)
  {
    forall i, j :: 0 <= i <= j < |table| ==>
      table[i].minTasks <= table[j].minTasks && table[i].minRating <= table[j].minRating
  }

  // ---------------------------------------------------------------------------------------
  // Lemmas

  lemma UserLevelsNondecreasing()
    ensures Nondecreasing(UserLevels)
  {
  }

  /** More completed tasks and a higher rating never shorten the met prefix, whatever the
      table. */
  lemma {:induction false} MetPrefixMonotone(table: seq<Level>, t1: int, r1: real, t2: int, r2: real)
    requires t1 <= t2 && r1 <= r2
    ensures MetPrefix(table, t1, r1) <= MetPrefix(table, t2, r2)
  {
    if table != [] && Meets(table[0], t1, r1) {
      MetPrefixMonotone(table[1..], t1, r1, t2, r2);
    }
  }

  /** The level is monotone in both the completed-task count and the rating. */
  lemma UserLevelMonotone(t1: int, r1: real, t2: int, r2: real)
    requires t1 <= t2 && r1 <= r2
    ensures LevelIndex(UserLevels, t1, r1) <= LevelIndex(UserLevels, t2, r2)
    ensures UserLevel(t1, r1).minTasks <= UserLevel(t2, r2).minTasks
    ensures UserLevel(t1, r1).minRating <= UserLevel(t2, r2).minRating
  {
    MetPrefixMonotone(UserLevels, t1, r1, t2, r2);
    UserLevelsNondecreasing();
  }

  /** On a nondecreasing table stopping at the first unmet level loses nothing: the rule picks
      the highest level that is met at all, and that level is met. */
  lemma HighestMetLevel(table: seq<Level>, completedTasks: int, rating: real)
    requires table != [] && Nondecreasing(table)
    ensures forall i :: 0 <= i < |table| && Meets(table[i], completedTasks, rating) ==>
      i <= LevelIndex(table, completedTasks, rating)
    ensures Meets(table[0], completedTasks, rating) ==>
      Meets(table[LevelIndex(table, completedTasks, rating)], completedTasks, rating)
  {
    var n := MetPrefix(table, completedTasks, rating);
    if n < |table| {
      assert !Meets(table[n], completedTasks, rating);
    }
  }

  /** The ladder at a few points: a new user, a user held back by the rating, and a user
      above every threshold. */
  lemma UserLevelExamples()
    ensures UserLevel(0, 0.0).name == "Task-K\U{FC}ken"
    ensures UserLevel(-1, 5.0) == UserLevels[0]
    ensures UserLevel(10, 3.2).name == "DoIt-Anf\U{E4}nger"
    ensures UserLevel(30, 5.0).name == "Superheld:in"
  {
    assert MetPrefix(UserLevels, 10, 3.2) == 2 by {
      assert MetPrefix(UserLevels[2..], 10, 3.2) == 0;
      assert UserLevels[1..][1..] == UserLevels[2..];
    }
    assert MetPrefix(UserLevels, 30, 5.0) == 5 by {
      assert UserLevels[1..][1..][1..][1..][1..] == [];
    }
  }
}
