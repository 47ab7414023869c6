/**
 * What the frozen-lake performance tracker reads from its environment,
 * given as plain values: the environment kind, grid positions and the
 * agent's score, plus the two numeric conversions the tracker applies to
 * them (the Manhattan distance and C++'s `(int)` cast of a double).
 */
module FrozenLakeEnv {

  /**
   * The kind an environment reports through `type()`. The tracker only
   * asks whether it is the frozen lake; `Graph` is the other kind the
   * experiments name, and `Other` stands for every remaining kind,
   * the maze environment included.
   */
  datatype EnvType = FrozenLake | Graph | Other

  /** A cell of the lake's grid, as a pair of integer coordinates. */
  datatype Position = Position(x: int, y: int)

  function Abs(n: int): nat
  {
    if n < 0 then -n else n
  }

  /**
   * The Manhattan (taxicab) distance between two cells. It is zero exactly
   * when the two cells coincide, and at least the gap along either axis.
   */
  function ManhattanDistance(a: Position, b: Position): (d: nat)
    ensures d == 0 <==> a == b
    ensures Abs(a.x - b.x) <= d && Abs(a.y - b.y) <= d
  {
    Abs(a.x - b.x) + Abs(a.y - b.y)
  }

  /**
   * C++'s `(int)` conversion of a double: the integer part, rounding
   * toward zero (so -2.5 becomes -2, not -3 as the floor would give).
   */
  function TruncateToInt(x: real): (n: int)
    ensures 0.0 <= x ==> n as real <= x < n as real + 1.0
    ensures x < 0.0 ==> n as real - 1.0 < x <= n as real
  {
    if x >= 0.0 then x.Floor else -((-x).Floor)
  }

  /** The two inequalities of TruncateToInt's contract pin its result down. */
  lemma TruncateToIntUnique(x: real, n: int)
    requires 0.0 <= x ==> n as real <= x < n as real + 1.0
    requires x < 0.0 ==> n as real - 1.0 < x <= n as real
    ensures n == TruncateToInt(x)
  {
  }

  /** Truncation commutes with negation, unlike the floor. */
  lemma TruncateToIntOdd(x: real)
    ensures TruncateToInt(-x) == -TruncateToInt(x)
  {
  }

  /** A double holding an integer converts back to that integer. */
  lemma TruncateToIntOfInteger(n: int)
    ensures TruncateToInt(n as real) == n
  {
  }
}
