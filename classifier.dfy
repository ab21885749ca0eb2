/**
 * Severity classification of checkSignalSituation: a heat index (WBGT) and a CO2
 * concentration are each mapped to a level 0..5 by a descending scan over a
 * breakpoint table, with strict comparisons.
 */
module Classifier {
  import opened Wrappers

  /** Highest severity level. */
  const MaxLevel: nat := 5

  /** Breakpoint tables `wbgtline` and `co2line`; entry 0 is never compared. */
  const WbgtLine: seq<real> := [0.0, 20.0, 22.0, 24.0, 26.0, 28.0]
  const Co2Line: seq<real> := [0.0, 500.0, 1000.0, 2500.0, 4000.0, 5000.0]

  /**
   * `x > bound` for a reading that may be absent. In JS a NaN fails every
   * comparison and null compares as 0; every bound compared here is >= 0,
   * so an absent reading fails every test.
   */
  predicate Above(x: Option<real>, bound: real)
  {
    x.Some? && x.value > bound
  }

  /** Entries 1.. of a table rise strictly. */
  ghost predicate Increasing(line: seq<real>)
  {
    forall i, j :: 1 <= i < j < |line| ==> line[i] < line[j]
  }

  /**
   * The scan from `top` down to 1: the highest level whose breakpoint the
   * reading exceeds, or 0 when it exceeds none of them.
   */
  function HighestAbove(x: Option<real>, line: seq<real>, top: nat): (level: nat)
    requires top < |line|
    ensures level <= top
    ensures level > 0 ==> Above(x, line[level])
    ensures forall j :: level < j <= top ==> !Above(x, line[j])
    decreases top
  {
    if top == 0 then 0
    else if Above(x, line[top]) then top
    else HighestAbove(x, line, top - 1)
  }

  /** The severity level of a reading against a six-entry table. */
  function Level(x: Option<real>, line: seq<real>): (level: nat)
    requires |line| == MaxLevel + 1
    ensures level <= MaxLevel
    ensures level > 0 ==> Above(x, line[level])
    ensures forall j :: level < j <= MaxLevel ==> !Above(x, line[j])
  {
    HighestAbove(x, line, MaxLevel)
  }

  /**
   * One of the two descending `for` loops of checkSignalSituation: start at
   * i = 5, stop at the first breakpoint the reading exceeds, write 0 when
   * i reaches 0.
   */
  method ScanLevel(x: Option<real>, line: seq<real>) returns (level: nat)
    requires |line| == MaxLevel + 1
    ensures level == Level(x, line)
  {
    var i: nat := MaxLevel;
    while true
      invariant i <= MaxLevel
      invariant HighestAbove(x, line, i) == Level(x, line)
      decreases i
    {
      if i == 0 {
        level := 0;
        break;
      }
      if Above(x, line[i]) {
        level := i;
        break;
      }
      i := i - 1;
    }
  }

  /** An absent reading is level 0. */
  lemma AbsentIsLevelZero(line: seq<real>)
    requires |line| == MaxLevel + 1
    ensures Level(None, line) == 0
  {
  }

  /** A larger reading never gets a lower level; this holds for any table. */
  lemma LevelMonotone(a: real, b: real, line: seq<real>)
    requires |line| == MaxLevel + 1
    requires a <= b
    ensures Level(Some(a), line) <= Level(Some(b), line)
  {
    var la := Level(Some(a), line);
    if la > 0 {
      assert Above(Some(b), line[la]);
    }
  }

  /**
   * For a rising table, level k is exactly the interval (line[k], line[k+1]]:
   * a reading equal to a breakpoint gets the lower level, and anything at or
   * below line[1] gets 0.
   */
  lemma LevelInterval(x: real, line: seq<real>, k: nat)
    requires |line| == MaxLevel + 1 && Increasing(line)
    requires k <= MaxLevel
    ensures Level(Some(x), line) == k <==>
              (k == 0 || x > line[k]) && (k == MaxLevel || x <= line[k + 1])
  {
  }

  lemma TablesIncreasing()
    ensures Increasing(WbgtLine) && Increasing(Co2Line)
  {
  }

  /** The breakpoints are exclusive lower bounds. */
  lemma BoundaryLevels()
    ensures Level(Some(20.0), WbgtLine) == 0
    ensures Level(Some(22.0), WbgtLine) == 1
    ensures Level(Some(22.5), WbgtLine) == 2
    ensures Level(Some(40.0), WbgtLine) == 5
    ensures Level(Some(500.0), Co2Line) == 0
    ensures Level(Some(501.0), Co2Line) == 1
    ensures Level(Some(5000.0), Co2Line) == 4
    ensures Level(Some(-3.0), Co2Line) == 0
  {
    TablesIncreasing();
    LevelInterval(20.0, WbgtLine, 0);
    LevelInterval(22.0, WbgtLine, 1);
    LevelInterval(22.5, WbgtLine, 2);
    LevelInterval(40.0, WbgtLine, 5);
    LevelInterval(500.0, Co2Line, 0);
    LevelInterval(501.0, Co2Line, 1);
    LevelInterval(5000.0, Co2Line, 4);
    LevelInterval(-3.0, Co2Line, 0);
  }
}
