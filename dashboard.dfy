/** The dashboard's logic: the learning-path filter, the summary figures and the colour
    choices, all pure functions of the module list and the two inputs the screen keeps
    (the selected difficulty and the search text). */
module Dashboard {
  import opened Wrappers
  import opened Rounding
  import opened Decimal

  datatype LearningModule = LearningModule(
    id: string,
    name: string,
    status: string,
    progress: nat,
    estimatedTime: string,
    difficulty: string)

  /** The status and difficulty values the module record type allows. */
  const Statuses: set<string> := {"skipped", "to-learn", "completed", "in-progress"}
  const Levels: set<string> := {"beginner", "intermediate", "advanced", "expert"}

  /** The shipped learning path. */
  function LearningPath(): (path: seq<LearningModule>)
    ensures |path| == 6
    ensures forall i :: 0 <= i < |path| ==>
      path[i].status in Statuses && path[i].difficulty in Levels && path[i].progress <= 100
  {
    [ LearningModule("1", "JavaScript Basics", "skipped", 100, "2 hours", "beginner"),
      LearningModule("2", "React Fundamentals", "to-learn", 0, "4 hours", "intermediate"),
      LearningModule("3", "Advanced React Patterns", "to-learn", 0, "6 hours", "advanced"),
      LearningModule("4", "State Management", "to-learn", 0, "5 hours", "intermediate"),
      LearningModule("5", "Performance Optimization", "to-learn", 0, "8 hours", "expert"),
      LearningModule("6", "Testing & Deployment", "to-learn", 0, "3 hours", "intermediate") ]
  }

  // ---- the filter ----

  /** `toLowerCase` on one character (ASCII letters). */
  function LowerChar(c: char): char {
    if 'A' <= c <= 'Z' then (c as int + 32) as char else c
  }

  function Lower(s: string): (r: string)
    ensures |r| == |s| && forall i :: 0 <= i < |s| ==> r[i] == LowerChar(s[i])
  {
    seq(|s|, i requires 0 <= i < |s| => LowerChar(s[i]))
  }

  /** `text.includes(pattern)`. */
  predicate Includes(text: string, pattern: string)
    decreases |text|
  {
    pattern <= text || (|text| > 0 && Includes(text[1..], pattern))
  }

  /** `selectedDifficulty === 'all' || module.difficulty === selectedDifficulty` */
  predicate MatchesDifficulty(m: LearningModule, selected: string) {
    selected == "all" || m.difficulty == selected
  }

  /** An empty query, or the lower-cased query inside the lower-cased name or
      difficulty. */
  predicate MatchesSearch(m: LearningModule, query: string) {
    || query == ""
    || Includes(Lower(m.name), Lower(query))
    || Includes(Lower(m.difficulty), Lower(query))
  }

  predicate Keep(m: LearningModule, selected: string, query: string) {
    MatchesDifficulty(m, selected) && MatchesSearch(m, query)
  }

  /** `learningPath.filter(...)`. */
  function FilteredModules(path: seq<LearningModule>, selected: string, query: string): (r: seq<LearningModule>)
    ensures |r| <= |path|
  {
    if |path| == 0 then []
    else (if Keep(path[0], selected, query) then [path[0]] else []) + FilteredModules(path[1..], selected, query)
  }

  /** `a` can be obtained from `b` by deleting elements, keeping the order. */
  predicate IsSubsequence<T(==)>(a: seq<T>, b: seq<T>)
    decreases |b|
  {
    || |a| == 0
    || (|b| > 0 && if a[0] == b[0] then IsSubsequence(a[1..], b[1..]) else IsSubsequence(a, b[1..]))
  }

  /** `pattern` occurs in `text` starting at index `i`. */
  predicate OccursAt(text: string, pattern: string, i: int) {
    0 <= i && i + |pattern| <= |text| && text[i..i + |pattern|] == pattern
  }

  /** `Includes` is substring search: some position of the text starts the pattern. */
  lemma {:induction false} IncludesAt(text: string, pattern: string)
    ensures Includes(text, pattern) <==> exists i :: OccursAt(text, pattern, i)
    decreases |text|
  {
    if pattern <= text {
      assert OccursAt(text, pattern, 0);
    } else {
      if exists i :: OccursAt(text, pattern, i) {
        var i :| OccursAt(text, pattern, i);
        assert i != 0;
        assert OccursAt(text[1..], pattern, i - 1);
      }
      if |text| > 0 {
        IncludesAt(text[1..], pattern);
        if Includes(text[1..], pattern) {
          var i :| OccursAt(text[1..], pattern, i);
          assert OccursAt(text, pattern, i + 1);
        }
      }
    }
  }

  /** The filter keeps the modules in their order: the result is a subsequence of the
      path. */
  lemma {:induction false} FilterIsSubsequence(path: seq<LearningModule>, selected: string, query: string)
    ensures IsSubsequence(FilteredModules(path, selected, query), path)
  {
    if |path| > 0 {
      var rest := FilteredModules(path[1..], selected, query);
      FilterIsSubsequence(path[1..], selected, query);
      if Keep(path[0], selected, query) {
        assert FilteredModules(path, selected, query) == [path[0]] + rest;
        assert ([path[0]] + rest)[1..] == rest;
      } else {
        assert FilteredModules(path, selected, query) == rest;
        SubsequenceDropFront(rest, path);
      }
    }
  }

  lemma {:induction false} SubsequenceDropFront<T>(a: seq<T>, b: seq<T>)
    requires |b| > 0 && IsSubsequence(a, b[1..])
    ensures IsSubsequence(a, b)
    decreases |b|, 0
  {
    if |a| > 0 && a[0] == b[0] {
      SubsequenceTail(a, b[1..]);
    }
  }

  lemma {:induction false} SubsequenceTail<T>(a: seq<T>, b: seq<T>)
    requires |a| > 0 && IsSubsequence(a, b)
    ensures IsSubsequence(a[1..], b)
    decreases |b|, 1
  {
    if a[0] != b[0] {
      SubsequenceTail(a, b[1..]);
      SubsequenceDropFront(a[1..], b);
    } else if |a| > 1 {
      SubsequenceDropFront(a[1..], b);
    }
  }

  /** A module is shown exactly when it is on the path and passes both tests. */
  lemma {:induction false} FilterMembers(path: seq<LearningModule>, selected: string, query: string)
    ensures forall m :: m in FilteredModules(path, selected, query) <==> m in path && Keep(m, selected, query)
  {
    if |path| > 0 {
      FilterMembers(path[1..], selected, query);
      assert path == [path[0]] + path[1..];
    }
  }

  /** With every difficulty selected and no search text, every module is shown. */
  lemma {:induction false} FilterShowsAll(path: seq<LearningModule>)
    ensures FilteredModules(path, "all", "") == path
  {
    if |path| > 0 {
      FilterShowsAll(path[1..]);
      assert path == [path[0]] + path[1..];
    }
  }

  /** With one difficulty selected, every shown module has exactly that difficulty. */
  lemma FilterBySelectedDifficulty(path: seq<LearningModule>, selected: string, query: string)
    requires selected != "all"
    ensures forall m :: m in FilteredModules(path, selected, query) ==> m.difficulty == selected
  {
    FilterMembers(path, selected, query);
  }

  /** A module passes the search exactly when the lower-cased query occurs in its
      lower-cased name or difficulty (the empty query occurs everywhere). */
  lemma SearchIsSubstring(m: LearningModule, query: string)
    ensures MatchesSearch(m, query) <==>
      || (exists i :: OccursAt(Lower(m.name), Lower(query), i))
      || (exists i :: OccursAt(Lower(m.difficulty), Lower(query), i))
  {
    IncludesAt(Lower(m.name), Lower(query));
    IncludesAt(Lower(m.difficulty), Lower(query));
    if query == "" {
      assert OccursAt(Lower(m.name), Lower(query), 0);
    }
  }

  /** Queries that differ only in letter case select the same modules. */
  lemma {:induction false} FilterIgnoresCase(path: seq<LearningModule>, selected: string, q1: string, q2: string)
    requires Lower(q1) == Lower(q2)
    ensures FilteredModules(path, selected, q1) == FilteredModules(path, selected, q2)
  {
    assert (q1 == "") == (q2 == "");
    if |path| > 0 {
      FilterIgnoresCase(path[1..], selected, q1, q2);
    }
  }

  /** Selecting "intermediate" on the shipped path shows modules 2, 4 and 6. */
  lemma ShippedIntermediate()
    ensures FilteredModules(LearningPath(), "intermediate", "") ==
      [LearningPath()[1], LearningPath()[3], LearningPath()[5]]
  {
    var path := LearningPath();
    assert path[5..][1..] == [];
    assert path[4..][1..] == path[5..];
    assert path[3..][1..] == path[4..];
    assert path[2..][1..] == path[3..];
    assert path[1..][1..] == path[2..];
    assert FilteredModules(path[5..], "intermediate", "") == [path[5]];
    assert FilteredModules(path[4..], "intermediate", "") == [path[5]];
    assert FilteredModules(path[3..], "intermediate", "") == [path[3], path[5]];
    assert FilteredModules(path[2..], "intermediate", "") == [path[3], path[5]];
    assert FilteredModules(path[1..], "intermediate", "") == [path[1], path[3], path[5]];
  }

  // ---- the summary figures ----

  /** `s.split(' ')[0]`: the text up to the first space. */
  function FirstToken(s: string): (t: string)
    ensures t <= s && ' ' !in t
    ensures |t| < |s| ==> s[|t|] == ' '
  {
    if |s| == 0 || s[0] == ' ' then [] else [s[0]] + FirstToken(s[1..])
  }

  /** `parseInt(module.estimatedTime.split(' ')[0])`; NaN is `None`. */
  function Hours(m: LearningModule): Option<int> {
    ParseInt(FirstToken(m.estimatedTime))
  }

  /** `learningPath.filter(module => module.status === 'skipped')` */
  function Skipped(path: seq<LearningModule>): (r: seq<LearningModule>)
    ensures |r| <= |path|
    ensures forall m :: m in r <==> m in path && m.status == "skipped"
  {
    if |path| == 0 then []
    else
      var init := Skipped(path[..|path| - 1]);
      assert path == path[..|path| - 1] + [path[|path| - 1]];
      if path[|path| - 1].status == "skipped" then init + [path[|path| - 1]] else init
  }

  /** The hours of each module, in order. */
  function HoursList(ms: seq<LearningModule>): (hs: seq<Option<int>>)
    ensures |hs| == |ms| && forall i :: 0 <= i < |ms| ==> hs[i] == Hours(ms[i])
  {
    seq(|ms|, i requires 0 <= i < |ms| => Hours(ms[i]))
  }

  /** `+` on numbers that may be NaN. */
  function Add(x: Option<int>, y: Option<int>): (r: Option<int>)
    ensures r.Some? <==> x.Some? && y.Some?
  {
    if x.Some? && y.Some? then Some(x.value + y.value) else None
  }

  /** `.reduce((total, x) => total + x, 0)`: a single NaN makes the sum NaN. */
  function SumOf(xs: seq<Option<int>>): Option<int> {
    if |xs| == 0 then Some(0) else Add(SumOf(xs[..|xs| - 1]), xs[|xs| - 1])
  }

  /** `totalTimeSaved`: the hours of the skipped modules added up. It is a number exactly
      when the time of every skipped module starts with a number; otherwise it is NaN. */
  function TotalTimeSaved(path: seq<LearningModule>): (total: Option<int>)
    ensures total.Some? <==> forall m :: m in path && m.status == "skipped" ==> Hours(m).Some?
  {
    var sk := Skipped(path);
    SumOfDefined(HoursList(sk));
    HoursListDefined(sk);
    SumOf(HoursList(sk))
  }

  function SkippedModules(path: seq<LearningModule>): (n: nat)
    ensures n <= |path|
  {
    |Skipped(path)|
  }

  /** `Math.round(skippedModules / totalModules * 100)`, for a non-empty path. */
  function TimeSavedPercentage(path: seq<LearningModule>): (pct: nat)
    requires |path| > 0
    ensures pct <= 100
  {
    PercentageBounds(SkippedModules(path), |path|);
    Percentage(SkippedModules(path), |path|)
  }

  /** A sum is a number exactly when every term is. */
  lemma {:induction false} SumOfDefined(xs: seq<Option<int>>)
    ensures SumOf(xs).Some? <==> forall i :: 0 <= i < |xs| ==> xs[i].Some?
  {
    if |xs| > 0 {
      var n := |xs| - 1;
      SumOfDefined(xs[..n]);
      assert forall i :: 0 <= i < n ==> xs[..n][i] == xs[i];
    }
  }

  /** Summing two lists one after the other adds their sums. */
  lemma {:induction false} SumOfAppend(a: seq<Option<int>>, b: seq<Option<int>>)
    ensures SumOf(a + b) == Add(SumOf(a), SumOf(b))
  {
    if |b| == 0 {
      assert a + b == a;
    } else {
      var n := |b| - 1;
      assert (a + b)[..|a + b| - 1] == a + b[..n];
      SumOfAppend(a, b[..n]);
    }
  }

  lemma HoursListDefined(ms: seq<LearningModule>)
    ensures (forall i :: 0 <= i < |ms| ==> HoursList(ms)[i].Some?) <==> (forall m :: m in ms ==> Hours(m).Some?)
  {
    var hs := HoursList(ms);
    if forall i :: 0 <= i < |hs| ==> hs[i].Some? {
      forall m | m in ms ensures Hours(m).Some? {
        var i :| 0 <= i < |ms| && ms[i] == m;
        assert hs[i] == Hours(m);
      }
    }
  }

  lemma {:induction false} SkippedAppend(p1: seq<LearningModule>, p2: seq<LearningModule>)
    ensures Skipped(p1 + p2) == Skipped(p1) + Skipped(p2)
    decreases |p2|
  {
    if |p2| == 0 {
      assert p1 + p2 == p1;
    } else {
      var n := |p2| - 1;
      assert (p1 + p2)[..|p1 + p2| - 1] == p1 + p2[..n];
      SkippedAppend(p1, p2[..n]);
    }
  }

  /** Splitting the path in two splits the time saved: the two parts' times add up. */
  lemma TimeSavedAdds(p1: seq<LearningModule>, p2: seq<LearningModule>)
    ensures TotalTimeSaved(p1 + p2) == Add(TotalTimeSaved(p1), TotalTimeSaved(p2))
    ensures SkippedModules(p1 + p2) == SkippedModules(p1) + SkippedModules(p2)
  {
    SkippedAppend(p1, p2);
    HoursListAppend(Skipped(p1), Skipped(p2));
    SumOfAppend(HoursList(Skipped(p1)), HoursList(Skipped(p2)));
  }

  lemma HoursListAppend(a: seq<LearningModule>, b: seq<LearningModule>)
    ensures HoursList(a + b) == HoursList(a) + HoursList(b)
  {
    var l, r := HoursList(a + b), HoursList(a) + HoursList(b);
    forall i | 0 <= i < |a + b| ensures l[i] == r[i] {
      if i < |a| {
        assert (a + b)[i] == a[i];
      } else {
        assert (a + b)[i] == b[i - |a|];
      }
    }
  }

  /** A time written as a number followed by a space and a unit reads back as that
      number. */
  lemma HoursOfNumeral(m: LearningModule, n: nat, unit: string)
    requires m.estimatedTime == Show(n) + " " + unit
    ensures Hours(m) == Some(n)
  {
    FirstTokenOfNumeral(Show(n), " " + unit);
    assert m.estimatedTime == Show(n) + (" " + unit);
    assert FirstToken(m.estimatedTime) == Show(n) + [];
    ParseShow(n, []);
  }

  lemma {:induction false} FirstTokenOfNumeral(d: string, rest: string)
    requires AllDigits(d) && |rest| > 0 && rest[0] == ' '
    ensures FirstToken(d + rest) == d
  {
    if |d| > 0 {
      assert (d + rest)[1..] == d[1..] + rest;
      FirstTokenOfNumeral(d[1..], rest);
    } else {
      assert d + rest == rest;
    }
  }

  /** A path whose only skipped module is its first one. */
  lemma SkippedOnlyFirst(path: seq<LearningModule>)
    requires |path| > 0 && path[0].status == "skipped"
    requires forall i :: 1 <= i < |path| ==> path[i].status != "skipped"
    ensures Skipped(path) == [path[0]]
  {
    var rest := path[1..];
    assert path == [path[0]] + rest;
    SkippedAppend([path[0]], rest);
    assert [path[0]][..0] == [];
    NothingSkipped(rest);
  }

  lemma NothingSkipped(ms: seq<LearningModule>)
    requires forall i :: 0 <= i < |ms| ==> ms[i].status != "skipped"
    ensures Skipped(ms) == []
  {
  }

  /** Only the first module of the shipped path is skipped. */
  lemma ShippedSkipped()
    ensures Skipped(LearningPath()) == [LearningPath()[0]]
  {
    SkippedOnlyFirst(LearningPath());
  }

  /** The one skipped module of the shipped path is worth 2 hours. */
  lemma ShippedHours()
    ensures HoursList([LearningPath()[0]]) == [Some(2)]
  {
    var m := LearningPath()[0];
    assert m.estimatedTime == Show(2) + " " + "hours";
    HoursOfNumeral(m, 2, "hours");
  }

  /** The figures the dashboard shows for the shipped path: 2 hours saved, 1 module
      skipped of 6, 17 percent. */
  lemma ShippedFigures()
    ensures TotalTimeSaved(LearningPath()) == Some(2)
    ensures SkippedModules(LearningPath()) == 1
    ensures TimeSavedPercentage(LearningPath()) == 17
  {
    ShippedSkipped();
    ShippedHours();
    SumOfOne(2);
    assert SkippedModules(LearningPath()) == 1;
    SixthRoundsTo17();
  }

  lemma SumOfOne(h: int)
    ensures SumOf([Some(h)]) == Some(h)
  {
    assert [Some(h)][..0] == [];
  }

  lemma SixthRoundsTo17()
    ensures Percentage(1, 6) == 17
  {
  }

  // ---- colours ----

  datatype Color = Default | Primary | Success | Warning | Danger

  /** `getStatusColor`: the three active statuses each get their own colour; skipped
      and anything else get the default one. */
  function StatusColor(status: string): (c: Color)
    ensures c == Default <==> status !in {"to-learn", "completed", "in-progress"}
    ensures c != Danger
  {
    match status
    case "skipped" => Default
    case "to-learn" => Primary
    case "completed" => Success
    case "in-progress" => Warning
    case _ => Default
  }

  /** `getDifficultyColor`: each of the four levels gets its own colour and anything
      else the default one. */
  function DifficultyColor(difficulty: string): (c: Color)
    ensures c == Default <==> difficulty !in Levels
  {
    match difficulty
    case "beginner" => Success
    case "intermediate" => Primary
    case "advanced" => Warning
    case "expert" => Danger
    case _ => Default
  }

  /** Different active statuses, and different difficulty levels, never share a
      colour. */
  lemma ColorsDistinguish(s1: string, s2: string, d1: string, d2: string)
    ensures s1 != s2 && s1 in {"to-learn", "completed", "in-progress"} && s2 in {"to-learn", "completed", "in-progress"}
            ==> StatusColor(s1) != StatusColor(s2)
    ensures d1 != d2 && d1 in Levels && d2 in Levels ==> DifficultyColor(d1) != DifficultyColor(d2)
  {
  }
}
