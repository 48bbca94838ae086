/** The level table of logger.go: five named severities, ordered from the most severe. */
module Levels {
  import opened Wrappers

  const LevelError := 1
  const LevelWarning := 2
  const LevelNotice := 3
  const LevelInfo := 4
  const LevelDebug := 5

  /** The level a new logger starts from before the requested one is looked up. */
  const DefaultLevel := "info"

  /** The level names in the order of their numbers: LevelNames[i] has number i + 1. */
  const LevelNames: seq<string> := ["error", "warning", "notice", "info", "debug"]

  /** levelMap: the only names a logger accepts. */
  const LevelMap: map<string, int> := map[
    "error" := LevelError,
    "warning" := LevelWarning,
    "notice" := LevelNotice,
    "info" := LevelInfo,
    "debug" := LevelDebug
  ]

  /** The five levels. */
  const AllLevels: set<int> := {LevelError, LevelWarning, LevelNotice, LevelInfo, LevelDebug}

  /** The colour name used for each level's label: `fileColors` of file.go, whose colours are also the
      ones the literal labels of logger.go use. */
  const LevelColors: map<int, string> := map[
    LevelError := "red",
    LevelWarning := "yellow",
    LevelNotice := "magenta",
    LevelInfo := "blue",
    LevelDebug := "cyan"
  ]

  predicate IsLevel(level: int) {
    LevelError <= level <= LevelDebug
  }

  /** The name of a level: the inverse of the table. */
  function LevelName(level: int): (name: string)
    requires IsLevel(level)
    ensures name in LevelMap && LevelMap[name] == level
  {
    LevelNames[level - 1]
  }

  /** The `levelMap[name]` lookup with its `ok` flag: a name is accepted exactly when it is the name
      of a level, and then gives that level. */
  function LookupLevel(name: string): (r: Option<int>)
    ensures r.Some? ==> IsLevel(r.value) && LevelName(r.value) == name
    ensures r.None? ==> forall level :: IsLevel(level) ==> LevelName(level) != name
  {
    if name in LevelMap then Some(LevelMap[name]) else None
  }

  /** A lookup in a label table; a level without an entry reads as the empty string, as a Go map does. */
  function LabelOf(labels: map<int, string>, level: int): string {
    if level in labels then labels[level] else ""
  }

  /** A message at `level` gets through a threshold unless it is numerically greater: an error passes
      every threshold, and a "debug" threshold lets every level through. */
  function Passes(threshold: int, level: int): (r: bool)
    ensures level == LevelError && IsLevel(threshold) ==> r
    ensures threshold == LevelDebug && IsLevel(level) ==> r
  {
    !(level > threshold)
  }

  /** The numbers increase strictly along the list of names, starting at 1; 0 is no level. */
  lemma LevelsIncrease()
    ensures forall i, j :: 0 <= i < j < |LevelNames| ==> LevelMap[LevelNames[i]] < LevelMap[LevelNames[j]]
    ensures forall i :: 0 <= i < |LevelNames| ==> LevelMap[LevelNames[i]] == i + 1
    ensures !IsLevel(0)
  {
  }

  /** The table holds exactly the five names, and its values are exactly the five levels. */
  lemma LevelMapExact()
    ensures LevelMap.Keys == set i | 0 <= i < |LevelNames| :: LevelNames[i]
    ensures LevelMap.Values == AllLevels
    ensures |LevelMap| == 5
    ensures LevelColors.Keys == AllLevels
  {
    var names := set i | 0 <= i < |LevelNames| :: LevelNames[i];
    assert names == {"error", "warning", "notice", "info", "debug"} by {
      assert LevelNames[0] == "error" && LevelNames[1] == "warning" && LevelNames[2] == "notice";
      assert LevelNames[3] == "info" && LevelNames[4] == "debug";
    }
    assert LevelMap.Values == {1, 2, 3, 4, 5} by {
      assert LevelMap["error"] == 1 && LevelMap["warning"] == 2 && LevelMap["notice"] == 3;
      assert LevelMap["info"] == 4 && LevelMap["debug"] == 5;
    }
  }

  /** The numbers 1 to 5 are the levels. */
  lemma AllLevelsAreLevels()
    ensures forall l :: l in AllLevels <==> IsLevel(l)
  {
  }

  /** The table's names, one by one. */
  lemma LevelNameCases(name: string)
    requires name in LevelMap
    ensures name == "error" || name == "warning" || name == "notice" || name == "info" || name == "debug"
  {
  }

  /** Different names map to different levels. */
  lemma LevelMapInjective(name: string, name': string)
    requires name in LevelMap && name' in LevelMap && LevelMap[name] == LevelMap[name']
    ensures name == name'
  {
    LevelNameOfLookup(name);
    LevelNameOfLookup(name');
  }

  /** The name of the level a name maps to is that name again. */
  lemma LevelNameOfLookup(name: string)
    requires name in LevelMap
    ensures LevelName(LevelMap[name]) == name
  {
    assert name in LevelNames;
  }

  /** Filtering is monotone: a message that passes a threshold still passes at any more severe level,
      and under any higher threshold. */
  lemma PassesMonotone(threshold: int, threshold': int, level: int, level': int)
    requires level' <= level && threshold <= threshold'
    ensures Passes(threshold, level) ==> Passes(threshold', level')
  {
  }

  /** A threshold named `name` lets through exactly the levels named up to and including `name`:
      "warning" lets through "error" and "warning" and nothing else. */
  lemma {:induction false} PassingNames(threshold: string, name: string)
    requires threshold in LevelMap && name in LevelMap
    ensures Passes(LevelMap[threshold], LevelMap[name]) <==> name in LevelNames[..LevelMap[threshold]]
  {
    var t, n := LevelMap[threshold], LevelMap[name];
    LevelsIncrease();
    assert LevelNames[n - 1] == name;
    if n <= t {
      assert LevelNames[..t][n - 1] == name;
    } else {
      forall k | 0 <= k < t ensures LevelNames[..t][k] != name {
        assert LevelMap[LevelNames[k]] == k + 1;
      }
    }
  }

  /** The example of the logger's own documentation: a "warning" logger keeps errors and warnings only. */
  lemma WarningThreshold()
    ensures forall name :: name in LevelMap ==>
      (Passes(LevelMap["warning"], LevelMap[name]) <==> name == "error" || name == "warning")
  {
    forall name | name in LevelMap
      ensures Passes(LevelMap["warning"], LevelMap[name]) <==> name == "error" || name == "warning"
    {
      PassingNames("warning", name);
      assert LevelNames[..2] == ["error", "warning"];
    }
  }
}
