/** What the assessment report promises, proved of the `Analysis` function that
    `Assessment.GenerateAnalysis` computes. */
module AnalysisProperties {
  import opened Wrappers
  import opened Rounding
  import opened Grouping
  import opened Assessment

  // ---- counting ----

  lemma {:induction false} CountTrueAll(hits: seq<bool>, value: bool)
    requires forall i :: 0 <= i < |hits| ==> hits[i] == value
    ensures CountTrue(hits) == if value then |hits| else 0
  {
    if |hits| > 0 {
      CountTrueAll(hits[..|hits| - 1], value);
    }
  }

  lemma {:induction false} HitsOfUniform<K>(keys: seq<K>, hits: seq<bool>, k: K, value: bool)
    requires |keys| == |hits|
    requires forall i :: 0 <= i < |hits| ==> hits[i] == value
    ensures HitsOf(keys, hits, k) == if value then Occurrences(keys, k) else 0
  {
    if |keys| > 0 {
      HitsOfUniform(keys[..|keys| - 1], hits[..|hits| - 1], k, value);
    }
  }

  lemma {:induction false} CorrectAnswersPrefix(questions: seq<Question>, answers: seq<Answer>, k: nat)
    requires |answers| <= |questions| && k <= |questions|
    ensures CountTrue(Hits(questions, answers)[..k])
         == CorrectAnswers(questions, answers[..if k < |answers| then k else |answers|])
  {
    if k > 0 {
      var hits := Hits(questions, answers);
      CorrectAnswersPrefix(questions, answers, k - 1);
      assert hits[..k][..k - 1] == hits[..k - 1];
      if k <= |answers| {
        assert answers[..k][..k - 1] == answers[..k - 1];
      }
    }
  }

  /** The overall count of correct answers, taken over the answer sheet, equals the
      number of questions answered correctly, taken over the question list. */
  lemma CorrectAnswersAgree(questions: seq<Question>, answers: seq<Answer>)
    requires |answers| <= |questions|
    ensures CountTrue(Hits(questions, answers)) == CorrectAnswers(questions, answers)
  {
    CorrectAnswersPrefix(questions, answers, |questions|);
    assert Hits(questions, answers)[..|questions|] == Hits(questions, answers);
    assert answers[..|answers|] == answers;
  }

  /** `overallScore` is `Math.round(100 * correct / total)`, between 0 and 100. */
  lemma ScoreInRange(questions: seq<Question>, answers: seq<Answer>, timeSpent: int)
    requires |questions| > 0 && |answers| <= |questions|
    ensures var score := Analysis(questions, answers, timeSpent).overallScore;
            var correct := CorrectAnswers(questions, answers);
            && score <= 100
            && -|questions| <= 2 * (100 * correct - |questions| * score) < |questions|
  {
    PercentageBounds(CorrectAnswers(questions, answers), |questions|);
  }

  /** In both group tables the totals add up to the number of questions and the
      corrects to the overall number of correct answers. */
  lemma GroupsAddUp(questions: seq<Question>, answers: seq<Answer>)
    requires |answers| <= |questions|
    ensures Sum(Totals(CategoryTable(questions, answers))) == |questions|
    ensures Sum(Corrects(CategoryTable(questions, answers))) == CorrectAnswers(questions, answers)
    ensures Sum(Totals(DifficultyTable(questions, answers))) == |questions|
    ensures Sum(Corrects(DifficultyTable(questions, answers))) == CorrectAnswers(questions, answers)
  {
    CorrectAnswersAgree(questions, answers);
    TallySums(CategoryKeys(questions), Hits(questions, answers));
    TallySums(DifficultyKeys(questions), Hits(questions, answers));
  }

  // ---- the accuracy tables, independently of how they are built ----

  /** `accuracyByCategory` lists each category once, in order of first appearance, with
      the rounded share of that category's questions that were answered correctly. */
  lemma AccuracyByCategory(questions: seq<Question>, answers: seq<Answer>, timeSpent: int)
    requires |questions| > 0 && |answers| <= |questions|
    ensures var acc := Analysis(questions, answers, timeSpent).accuracyByCategory;
            var keys := CategoryKeys(questions);
            var hits := Hits(questions, answers);
            && |acc| == |FirstOccurrences(keys)|
            && (forall i :: 0 <= i < |acc| ==>
                  && acc[i].key == FirstOccurrences(keys)[i]
                  && Occurrences(keys, acc[i].key) > 0
                  && acc[i].accuracy == Percentage(HitsOf(keys, hits, acc[i].key), Occurrences(keys, acc[i].key)))
  {
    var keys, hits := CategoryKeys(questions), Hits(questions, answers);
    TallyKeys(keys, hits);
    TallyCounts(keys, hits);
    var gs := CategoryTable(questions, answers);
    forall i | 0 <= i < |gs| ensures gs[i].key == FirstOccurrences(keys)[i] {
      assert Keys(gs)[i] == gs[i].key;
    }
  }

  /** `difficultyBreakdown` lists each difficulty once, in order of first appearance,
      with the rounded share of its questions that were answered correctly. */
  lemma DifficultyBreakdown(questions: seq<Question>, answers: seq<Answer>, timeSpent: int)
    requires |questions| > 0 && |answers| <= |questions|
    ensures var acc := Analysis(questions, answers, timeSpent).difficultyBreakdown;
            var keys := DifficultyKeys(questions);
            var hits := Hits(questions, answers);
            && |acc| == |FirstOccurrences(keys)|
            && (forall i :: 0 <= i < |acc| ==>
                  && acc[i].key == FirstOccurrences(keys)[i]
                  && Occurrences(keys, acc[i].key) > 0
                  && acc[i].accuracy == Percentage(HitsOf(keys, hits, acc[i].key), Occurrences(keys, acc[i].key)))
  {
    var keys, hits := DifficultyKeys(questions), Hits(questions, answers);
    TallyKeys(keys, hits);
    TallyCounts(keys, hits);
    var gs := DifficultyTable(questions, answers);
    forall i | 0 <= i < |gs| ensures gs[i].key == FirstOccurrences(keys)[i] {
      assert Keys(gs)[i] == gs[i].key;
    }
  }

  // ---- the insight lists ----

  lemma {:induction false} CategoryListsSound(acc: seq<Entry<string>>)
    ensures forall s :: s in CategoryStrengths(acc) ==>
              s.StrongCategory? && s.accuracy >= StrongFrom && Entry(s.category, s.accuracy) in acc
    ensures forall w :: w in CategoryWeaknesses(acc) ==>
              w.accuracy <= WeakUpTo && Entry(w.category, w.accuracy) in acc
    ensures |CategoryRecommendations(acc)| == |CategoryWeaknesses(acc)|
    ensures forall i :: 0 <= i < |CategoryWeaknesses(acc)| ==>
              CategoryRecommendations(acc)[i] == StudyCategory(CategoryWeaknesses(acc)[i].category)
  {
    if |acc| > 0 {
      var n := |acc| - 1;
      CategoryListsSound(acc[..n]);
      assert acc == acc[..n] + [acc[n]];
    }
  }

  lemma {:induction false} CategoryListsComplete(acc: seq<Entry<string>>)
    ensures forall i :: 0 <= i < |acc| && acc[i].accuracy >= StrongFrom ==>
              StrongCategory(acc[i].key, acc[i].accuracy) in CategoryStrengths(acc)
    ensures forall i :: 0 <= i < |acc| && acc[i].accuracy <= WeakUpTo ==>
              WeakCategory(acc[i].key, acc[i].accuracy) in CategoryWeaknesses(acc)
    ensures forall i :: 0 <= i < |acc| && acc[i].accuracy <= WeakUpTo ==>
              StudyCategory(acc[i].key) in CategoryRecommendations(acc)
  {
    if |acc| > 0 {
      var n := |acc| - 1;
      CategoryListsComplete(acc[..n]);
      forall i | 0 <= i < n
        ensures acc[..n][i] == acc[i]
      {
      }
    }
  }

  lemma {:induction false} DifficultyListSound(acc: seq<Entry<Difficulty>>)
    ensures forall r :: r in DifficultyRecommendations(acc) ==>
              r.PracticeDifficulty? && exists i :: 0 <= i < |acc| && acc[i].key == r.difficulty && acc[i].accuracy <= WeakUpTo
    ensures forall i :: 0 <= i < |acc| && acc[i].accuracy <= WeakUpTo ==>
              PracticeDifficulty(acc[i].key) in DifficultyRecommendations(acc)
  {
    if |acc| > 0 {
      var n := |acc| - 1;
      DifficultyListSound(acc[..n]);
      forall r | r in DifficultyRecommendations(acc)
        ensures r.PracticeDifficulty? && exists i :: 0 <= i < |acc| && acc[i].key == r.difficulty && acc[i].accuracy <= WeakUpTo
      {
        if r in DifficultyRecommendations(acc[..n]) {
          var i :| 0 <= i < n && acc[..n][i].key == r.difficulty && acc[..n][i].accuracy <= WeakUpTo;
          assert acc[i] == acc[..n][i];
        } else {
          assert acc[n].key == r.difficulty && acc[n].accuracy <= WeakUpTo;
        }
      }
      forall i | 0 <= i < n
        ensures acc[..n][i] == acc[i]
      {
      }
    }
  }

  /** Which entries reach accuracy `t`. */
  function AtLeast<K>(acc: seq<Entry<K>>, t: nat): (m: seq<bool>)
    ensures |m| == |acc| && forall i :: 0 <= i < |acc| ==> m[i] == (acc[i].accuracy >= t)
  {
    seq(|acc|, i requires 0 <= i < |acc| => acc[i].accuracy >= t)
  }

  /** Which entries stay at or below accuracy `t`. */
  function AtMost<K>(acc: seq<Entry<K>>, t: nat): (m: seq<bool>)
    ensures |m| == |acc| && forall i :: 0 <= i < |acc| ==> m[i] == (acc[i].accuracy <= t)
  {
    seq(|acc|, i requires 0 <= i < |acc| => acc[i].accuracy <= t)
  }

  /** The strengths are one entry per category at 80 or more, in key order. */
  lemma {:induction false} StrengthsInKeyOrder(acc: seq<Entry<string>>)
    ensures var pos := Indices(AtLeast(acc, StrongFrom));
            && |CategoryStrengths(acc)| == |pos| == CountTrue(AtLeast(acc, StrongFrom))
            && forall k :: 0 <= k < |pos| ==>
                 CategoryStrengths(acc)[k] == StrongCategory(acc[pos[k]].key, acc[pos[k]].accuracy)
  {
    if |acc| > 0 {
      var n := |acc| - 1;
      StrengthsInKeyOrder(acc[..n]);
      assert AtLeast(acc, StrongFrom)[..n] == AtLeast(acc[..n], StrongFrom);
      var prior := Indices(AtLeast(acc[..n], StrongFrom));
      forall k | 0 <= k < |prior| ensures acc[..n][prior[k]] == acc[prior[k]] {
      }
    }
  }

  lemma {:induction false} WeakPositions(acc: seq<Entry<string>>)
    ensures var pos := Indices(AtMost(acc, WeakUpTo));
            && |CategoryWeaknesses(acc)| == |pos|
            && forall k :: 0 <= k < |pos| ==>
                 CategoryWeaknesses(acc)[k] == WeakCategory(acc[pos[k]].key, acc[pos[k]].accuracy)
  {
    if |acc| > 0 {
      var n := |acc| - 1;
      WeakPositions(acc[..n]);
      assert AtMost(acc, WeakUpTo)[..n] == AtMost(acc[..n], WeakUpTo);
      var prior := Indices(AtMost(acc[..n], WeakUpTo));
      forall k | 0 <= k < |prior| ensures acc[..n][prior[k]] == acc[prior[k]] {
      }
    }
  }

  /** The weaknesses are one entry per category at 50 or less, in key order, and the
      study recommendations follow them one for one. */
  lemma WeaknessesInKeyOrder(acc: seq<Entry<string>>)
    ensures var pos := Indices(AtMost(acc, WeakUpTo));
            && |CategoryWeaknesses(acc)| == |pos| == CountTrue(AtMost(acc, WeakUpTo))
            && |CategoryRecommendations(acc)| == |pos|
            && forall k :: 0 <= k < |pos| ==>
                 && CategoryWeaknesses(acc)[k] == WeakCategory(acc[pos[k]].key, acc[pos[k]].accuracy)
                 && CategoryRecommendations(acc)[k] == StudyCategory(acc[pos[k]].key)
  {
    WeakPositions(acc);
    CategoryListsSound(acc);
  }

  /** The practice recommendations are one entry per difficulty at 50 or less, in key
      order. */
  lemma {:induction false} PracticeInKeyOrder(acc: seq<Entry<Difficulty>>)
    ensures var pos := Indices(AtMost(acc, WeakUpTo));
            && |DifficultyRecommendations(acc)| == |pos| == CountTrue(AtMost(acc, WeakUpTo))
            && forall k :: 0 <= k < |pos| ==> DifficultyRecommendations(acc)[k] == PracticeDifficulty(acc[pos[k]].key)
  {
    if |acc| > 0 {
      var n := |acc| - 1;
      PracticeInKeyOrder(acc[..n]);
      assert AtMost(acc, WeakUpTo)[..n] == AtMost(acc[..n], WeakUpTo);
      var prior := Indices(AtMost(acc[..n], WeakUpTo));
      forall k | 0 <= k < |prior| ensures acc[..n][prior[k]] == acc[prior[k]] {
      }
    }
  }

  ghost predicate DistinctEntries<K>(acc: seq<Entry<K>>) {
    forall i, j :: 0 <= i < j < |acc| ==> acc[i].key != acc[j].key
  }

  lemma AccuracyKeysDistinct(questions: seq<Question>, answers: seq<Answer>)
    requires |answers| <= |questions|
    ensures DistinctEntries(Accuracies(CategoryTable(questions, answers)))
    ensures DistinctEntries(Accuracies(DifficultyTable(questions, answers)))
  {
    TallyCounts(CategoryKeys(questions), Hits(questions, answers));
    TallyCounts(DifficultyKeys(questions), Hits(questions, answers));
  }

  /** With distinct keys no insight list names a category or a difficulty twice. */
  lemma InsightsNoRepeats(byCategory: seq<Entry<string>>, byDifficulty: seq<Entry<Difficulty>>)
    requires DistinctEntries(byCategory) && DistinctEntries(byDifficulty)
    ensures var strong := CategoryStrengths(byCategory);
            forall k, l :: 0 <= k < l < |strong| ==> strong[k] != strong[l]
    ensures var weak := CategoryWeaknesses(byCategory);
            forall k, l :: 0 <= k < l < |weak| ==> weak[k].category != weak[l].category
    ensures var study := CategoryRecommendations(byCategory);
            forall k, l :: 0 <= k < l < |study| ==> study[k] != study[l]
    ensures var practice := DifficultyRecommendations(byDifficulty);
            forall k, l :: 0 <= k < l < |practice| ==> practice[k] != practice[l]
  {
    StrengthsInKeyOrder(byCategory);
    WeaknessesInKeyOrder(byCategory);
    PracticeInKeyOrder(byDifficulty);
  }

  lemma StudyIffWeak(acc: seq<Entry<string>>, i: nat)
    requires DistinctEntries(acc) && i < |acc|
    ensures StudyCategory(acc[i].key) in CategoryRecommendations(acc) <==> acc[i].accuracy <= WeakUpTo
  {
    CategoryListsSound(acc);
    CategoryListsComplete(acc);
    var recs, weak := CategoryRecommendations(acc), CategoryWeaknesses(acc);
    if acc[i].accuracy <= WeakUpTo {
      var k :| 0 <= k < |weak| && weak[k] == WeakCategory(acc[i].key, acc[i].accuracy);
      assert recs[k] == StudyCategory(acc[i].key);
    }
    if StudyCategory(acc[i].key) in recs {
      var k :| 0 <= k < |recs| && recs[k] == StudyCategory(acc[i].key);
      assert weak[k] in weak;
      var j :| 0 <= j < |acc| && acc[j] == Entry(weak[k].category, weak[k].accuracy);
      assert j == i;
    }
  }

  lemma PracticeIffWeak(acc: seq<Entry<Difficulty>>, i: nat)
    requires DistinctEntries(acc) && i < |acc|
    ensures PracticeDifficulty(acc[i].key) in DifficultyRecommendations(acc) <==> acc[i].accuracy <= WeakUpTo
  {
    DifficultyListSound(acc);
    if PracticeDifficulty(acc[i].key) in DifficultyRecommendations(acc) {
      var j :| 0 <= j < |acc| && acc[j].key == acc[i].key && acc[j].accuracy <= WeakUpTo;
      assert j == i;
    }
  }

  /** Per category of a report: a strength exactly when its accuracy is at least 80, a
      weakness and a study recommendation exactly when it is at most 50 (so never both,
      and neither from 51 to 79). */
  lemma InsightsCategoryVerdicts(score: nat, byCategory: seq<Entry<string>>,
                                 byDifficulty: seq<Entry<Difficulty>>, timeSpent: int, i: nat)
    requires DistinctEntries(byCategory) && i < |byCategory|
    ensures var r := Insights(score, byCategory, byDifficulty, timeSpent);
            var e := byCategory[i];
            && (StrongCategory(e.key, e.accuracy) in r.strengths <==> e.accuracy >= StrongFrom)
            && (WeakCategory(e.key, e.accuracy) in r.weaknesses <==> e.accuracy <= WeakUpTo)
            && (StudyCategory(e.key) in r.recommendations <==> e.accuracy <= WeakUpTo)
  {
    var e := byCategory[i];
    CategoryListsSound(byCategory);
    CategoryListsComplete(byCategory);
    DifficultyListSound(byDifficulty);
    StudyIffWeak(byCategory, i);
    var practice := DifficultyRecommendations(byDifficulty);
    assert StudyCategory(e.key) !in practice;
  }

  /** Per difficulty of a report: a practice recommendation exactly when its accuracy is
      at most 50. */
  lemma InsightsDifficultyVerdicts(score: nat, byCategory: seq<Entry<string>>,
                                   byDifficulty: seq<Entry<Difficulty>>, timeSpent: int, i: nat)
    requires DistinctEntries(byDifficulty) && i < |byDifficulty|
    ensures var r := Insights(score, byCategory, byDifficulty, timeSpent);
            var e := byDifficulty[i];
            PracticeDifficulty(e.key) in r.recommendations <==> e.accuracy <= WeakUpTo
  {
    CategoryListsSound(byCategory);
    PracticeIffWeak(byDifficulty, i);
    var cats := CategoryRecommendations(byCategory);
    assert PracticeDifficulty(byDifficulty[i].key) !in cats;
  }

  /** The overall entries and the order of the recommendations of a report: first one
      study entry per weak category, in the order of the weaknesses, then the practice
      entries, then the overall entries. A score of 80 or more adds exactly one strength,
      after the category strengths, and the advance recommendation; one of 50 or less
      adds the review and then the retake recommendation; a score in between adds
      nothing. */
  lemma InsightsOverall(score: nat, byCategory: seq<Entry<string>>,
                        byDifficulty: seq<Entry<Difficulty>>, timeSpent: int)
    ensures var r := Insights(score, byCategory, byDifficulty, timeSpent);
            var w := |r.weaknesses|;
            var practice := DifficultyRecommendations(byDifficulty);
            && (ExcellentOverall in r.strengths <==> score >= StrongFrom)
            && (AdvanceTopics in r.recommendations <==> score >= StrongFrom)
            && (ReviewFundamentals in r.recommendations <==> score <= WeakUpTo)
            && (RetakeAssessment in r.recommendations <==> score <= WeakUpTo)
            && |r.recommendations| == w + |practice|
                 + (if score >= StrongFrom then 1 else if score <= WeakUpTo then 2 else 0)
            && (forall i :: 0 <= i < w ==> r.recommendations[i] == StudyCategory(r.weaknesses[i].category))
            && r.recommendations[w..w + |practice|] == practice
    ensures var r := Insights(score, byCategory, byDifficulty, timeSpent);
            var c := CategoryStrengths(byCategory);
            && |r.strengths| == |c| + (if score >= StrongFrom then 1 else 0)
            && r.strengths[..|c|] == c
            && (score >= StrongFrom ==> r.strengths[|c|] == ExcellentOverall)
            && (score <= WeakUpTo ==>
                  r.recommendations[|r.recommendations| - 2..] == [ReviewFundamentals, RetakeAssessment])
  {
    OverallPlacement(score, byCategory, byDifficulty, timeSpent);
    CategoryListsSound(byCategory);
    DifficultyListSound(byDifficulty);
    var cats := CategoryRecommendations(byCategory);
    var practice := DifficultyRecommendations(byDifficulty);
    assert ExcellentOverall !in CategoryStrengths(byCategory);
    assert AdvanceTopics !in cats + practice;
    assert ReviewFundamentals !in cats + practice;
    assert RetakeAssessment !in cats + practice;
  }

  /** Proof step of `InsightsOverall`: where the overall entries sit, the overall
      strength after the category strengths, review and retake at the end of the
      recommendations. */
  lemma OverallPlacement(score: nat, byCategory: seq<Entry<string>>,
                         byDifficulty: seq<Entry<Difficulty>>, timeSpent: int)
    ensures var r := Insights(score, byCategory, byDifficulty, timeSpent);
            var c := CategoryStrengths(byCategory);
            && |r.strengths| == |c| + (if score >= StrongFrom then 1 else 0)
            && r.strengths[..|c|] == c
            && (score >= StrongFrom ==> r.strengths[|c|] == ExcellentOverall)
            && (score <= WeakUpTo ==>
                  r.recommendations[|r.recommendations| - 2..] == [ReviewFundamentals, RetakeAssessment])
  {
  }

  /** Per category of the analysis report: accuracy in [0, 100]; a strength exactly when
      it is at least 80; a weakness and a study recommendation exactly when it is at
      most 50. */
  lemma CategoryVerdicts(questions: seq<Question>, answers: seq<Answer>, timeSpent: int)
    requires |questions| > 0 && |answers| <= |questions|
    ensures var r := Analysis(questions, answers, timeSpent);
            forall i :: 0 <= i < |r.accuracyByCategory| ==>
              var e := r.accuracyByCategory[i];
              && e.accuracy <= 100
              && (StrongCategory(e.key, e.accuracy) in r.strengths <==> e.accuracy >= StrongFrom)
              && (WeakCategory(e.key, e.accuracy) in r.weaknesses <==> e.accuracy <= WeakUpTo)
              && (StudyCategory(e.key) in r.recommendations <==> e.accuracy <= WeakUpTo)
  {
    var r := Analysis(questions, answers, timeSpent);
    AccuracyKeysDistinct(questions, answers);
    forall i | 0 <= i < |r.accuracyByCategory|
      ensures var e := r.accuracyByCategory[i];
              && (StrongCategory(e.key, e.accuracy) in r.strengths <==> e.accuracy >= StrongFrom)
              && (WeakCategory(e.key, e.accuracy) in r.weaknesses <==> e.accuracy <= WeakUpTo)
              && (StudyCategory(e.key) in r.recommendations <==> e.accuracy <= WeakUpTo)
    {
      InsightsCategoryVerdicts(r.overallScore, r.accuracyByCategory, r.difficultyBreakdown, timeSpent, i);
    }
  }

  /** Per difficulty of the analysis report: accuracy in [0, 100]; a practice
      recommendation exactly when it is at most 50. */
  lemma DifficultyVerdicts(questions: seq<Question>, answers: seq<Answer>, timeSpent: int)
    requires |questions| > 0 && |answers| <= |questions|
    ensures var r := Analysis(questions, answers, timeSpent);
            forall i :: 0 <= i < |r.difficultyBreakdown| ==>
              var e := r.difficultyBreakdown[i];
              && e.accuracy <= 100
              && (PracticeDifficulty(e.key) in r.recommendations <==> e.accuracy <= WeakUpTo)
  {
    var r := Analysis(questions, answers, timeSpent);
    AccuracyKeysDistinct(questions, answers);
    forall i | 0 <= i < |r.difficultyBreakdown|
      ensures PracticeDifficulty(r.difficultyBreakdown[i].key) in r.recommendations
              <==> r.difficultyBreakdown[i].accuracy <= WeakUpTo
    {
      InsightsDifficultyVerdicts(r.overallScore, r.accuracyByCategory, r.difficultyBreakdown, timeSpent, i);
    }
  }

  // ---- the two extremes: every answer right, every answer wrong ----

  lemma {:induction false} AllStrongLists(acc: seq<Entry<string>>)
    requires forall i :: 0 <= i < |acc| ==> acc[i].accuracy >= StrongFrom
    ensures |CategoryStrengths(acc)| == |acc|
    ensures forall i :: 0 <= i < |acc| ==> CategoryStrengths(acc)[i] == StrongCategory(acc[i].key, acc[i].accuracy)
    ensures CategoryWeaknesses(acc) == [] && CategoryRecommendations(acc) == []
  {
    if |acc| > 0 {
      AllStrongLists(acc[..|acc| - 1]);
    }
  }

  lemma {:induction false} AllWeakLists(acc: seq<Entry<string>>)
    requires forall i :: 0 <= i < |acc| ==> acc[i].accuracy <= WeakUpTo
    ensures CategoryStrengths(acc) == []
    ensures |CategoryWeaknesses(acc)| == |acc| && |CategoryRecommendations(acc)| == |acc|
    ensures forall i :: 0 <= i < |acc| ==>
              && CategoryWeaknesses(acc)[i] == WeakCategory(acc[i].key, acc[i].accuracy)
              && CategoryRecommendations(acc)[i] == StudyCategory(acc[i].key)
  {
    if |acc| > 0 {
      AllWeakLists(acc[..|acc| - 1]);
    }
  }

  lemma {:induction false} DifficultyListExtremes(acc: seq<Entry<Difficulty>>)
    ensures (forall i :: 0 <= i < |acc| ==> acc[i].accuracy > WeakUpTo) ==> DifficultyRecommendations(acc) == []
    ensures (forall i :: 0 <= i < |acc| ==> acc[i].accuracy <= WeakUpTo) ==>
              && |DifficultyRecommendations(acc)| == |acc|
              && forall j :: 0 <= j < |acc| ==> DifficultyRecommendations(acc)[j] == PracticeDifficulty(acc[j].key)
  {
    if |acc| > 0 {
      DifficultyListExtremes(acc[..|acc| - 1]);
    }
  }

  /** A report whose score and accuracies are all 100. */
  lemma InsightsAllFull(byCategory: seq<Entry<string>>, byDifficulty: seq<Entry<Difficulty>>, timeSpent: int)
    requires forall i :: 0 <= i < |byCategory| ==> byCategory[i].accuracy == 100
    requires forall i :: 0 <= i < |byDifficulty| ==> byDifficulty[i].accuracy == 100
    ensures var r := Insights(100, byCategory, byDifficulty, timeSpent);
            && |r.strengths| == |byCategory| + 1
            && (forall i :: 0 <= i < |byCategory| ==> r.strengths[i] == StrongCategory(byCategory[i].key, 100))
            && r.strengths[|byCategory|] == ExcellentOverall
            && r.weaknesses == []
            && r.recommendations == [AdvanceTopics]
  {
    AllStrongLists(byCategory);
    DifficultyListExtremes(byDifficulty);
  }

  /** A report whose score and accuracies are all 0. */
  lemma InsightsAllZero(byCategory: seq<Entry<string>>, byDifficulty: seq<Entry<Difficulty>>, timeSpent: int)
    requires forall i :: 0 <= i < |byCategory| ==> byCategory[i].accuracy == 0
    requires forall i :: 0 <= i < |byDifficulty| ==> byDifficulty[i].accuracy == 0
    ensures var r := Insights(0, byCategory, byDifficulty, timeSpent);
            && r.strengths == []
            && |r.weaknesses| == |byCategory|
            && (forall i :: 0 <= i < |byCategory| ==> r.weaknesses[i] == WeakCategory(byCategory[i].key, 0))
            && |r.recommendations| == |byCategory| + |byDifficulty| + 2
            && (forall i :: 0 <= i < |byCategory| ==> r.recommendations[i] == StudyCategory(byCategory[i].key))
            && (forall j :: 0 <= j < |byDifficulty| ==>
                  r.recommendations[|byCategory| + j] == PracticeDifficulty(byDifficulty[j].key))
            && r.recommendations[|r.recommendations| - 2..] == [ReviewFundamentals, RetakeAssessment]
  {
    AllZeroWeaknesses(byCategory, byDifficulty, timeSpent);
    AllZeroRecommendations(byCategory, byDifficulty, timeSpent);
  }

  /** Proof step of `InsightsAllZero`: its strengths and weaknesses. */
  lemma AllZeroWeaknesses(byCategory: seq<Entry<string>>, byDifficulty: seq<Entry<Difficulty>>, timeSpent: int)
    requires forall i :: 0 <= i < |byCategory| ==> byCategory[i].accuracy == 0
    ensures var r := Insights(0, byCategory, byDifficulty, timeSpent);
            && r.strengths == []
            && |r.weaknesses| == |byCategory|
            && (forall i :: 0 <= i < |byCategory| ==> r.weaknesses[i] == WeakCategory(byCategory[i].key, 0))
  {
    AllWeakLists(byCategory);
  }

  /** Proof step of `InsightsAllZero`: its recommendations. */
  lemma AllZeroRecommendations(byCategory: seq<Entry<string>>, byDifficulty: seq<Entry<Difficulty>>, timeSpent: int)
    requires forall i :: 0 <= i < |byCategory| ==> byCategory[i].accuracy == 0
    requires forall i :: 0 <= i < |byDifficulty| ==> byDifficulty[i].accuracy == 0
    ensures var recs := Insights(0, byCategory, byDifficulty, timeSpent).recommendations;
            && |recs| == |byCategory| + |byDifficulty| + 2
            && (forall i :: 0 <= i < |byCategory| ==> recs[i] == StudyCategory(byCategory[i].key))
            && (forall j :: 0 <= j < |byDifficulty| ==>
                  recs[|byCategory| + j] == PracticeDifficulty(byDifficulty[j].key))
            && recs[|recs| - 2..] == [ReviewFundamentals, RetakeAssessment]
  {
    AllWeakLists(byCategory);
    DifficultyListExtremes(byDifficulty);
    PlacedRecommendations(Insights(0, byCategory, byDifficulty, timeSpent).recommendations,
      CategoryRecommendations(byCategory), DifficultyRecommendations(byDifficulty), byCategory, byDifficulty);
  }

  /** Study entries, then practice entries, then review and retake, by position. */
  lemma PlacedRecommendations(recs: seq<Recommendation>, study: seq<Recommendation>, practice: seq<Recommendation>,
                              byCategory: seq<Entry<string>>, byDifficulty: seq<Entry<Difficulty>>)
    requires recs == study + practice + [ReviewFundamentals, RetakeAssessment]
    requires |study| == |byCategory| && forall i :: 0 <= i < |study| ==> study[i] == StudyCategory(byCategory[i].key)
    requires |practice| == |byDifficulty|
    requires forall j :: 0 <= j < |practice| ==> practice[j] == PracticeDifficulty(byDifficulty[j].key)
    ensures && |recs| == |byCategory| + |byDifficulty| + 2
            && (forall i :: 0 <= i < |byCategory| ==> recs[i] == StudyCategory(byCategory[i].key))
            && (forall j :: 0 <= j < |byDifficulty| ==>
                  recs[|byCategory| + j] == PracticeDifficulty(byDifficulty[j].key))
            && recs[|recs| - 2..] == [ReviewFundamentals, RetakeAssessment]
  {
    ThreeParts(study, practice, [ReviewFundamentals, RetakeAssessment]);
  }

  /** Indexing into a list made of three parts. */
  lemma ThreeParts<T>(a: seq<T>, b: seq<T>, c: seq<T>)
    ensures |a + b + c| == |a| + |b| + |c|
    ensures forall i :: 0 <= i < |a| ==> (a + b + c)[i] == a[i]
    ensures forall j :: 0 <= j < |b| ==> (a + b + c)[|a| + j] == b[j]
    ensures (a + b + c)[|a| + |b|..] == c
  {
    assert (a + b + c)[|a| + |b|..] == c;
  }

  /** The accuracy tables when every answer is right (`value`) or every answer is
      wrong or absent (not `value`). */
  lemma UniformAccuracies(questions: seq<Question>, answers: seq<Answer>, timeSpent: int, value: bool)
    requires |questions| > 0 && |answers| <= |questions|
    requires forall i :: 0 <= i < |questions| ==> IsCorrect(questions[i], AnswerAt(answers, i)) == value
    ensures var r := Analysis(questions, answers, timeSpent);
            && r.overallScore == (if value then 100 else 0)
            && (forall i :: 0 <= i < |r.accuracyByCategory| ==> r.accuracyByCategory[i].accuracy == r.overallScore)
            && (forall i :: 0 <= i < |r.difficultyBreakdown| ==> r.difficultyBreakdown[i].accuracy == r.overallScore)
  {
    var hits := Hits(questions, answers);
    CountTrueAll(hits, value);
    CorrectAnswersAgree(questions, answers);
    PercentageEnds(|questions|);
    var r := Analysis(questions, answers, timeSpent);
    AccuracyByCategory(questions, answers, timeSpent);
    DifficultyBreakdown(questions, answers, timeSpent);
    forall i | 0 <= i < |r.accuracyByCategory|
      ensures r.accuracyByCategory[i].accuracy == r.overallScore
    {
      var k := r.accuracyByCategory[i].key;
      HitsOfUniform(CategoryKeys(questions), hits, k, value);
      PercentageEnds(Occurrences(CategoryKeys(questions), k));
    }
    forall i | 0 <= i < |r.difficultyBreakdown|
      ensures r.difficultyBreakdown[i].accuracy == r.overallScore
    {
      var k := r.difficultyBreakdown[i].key;
      HitsOfUniform(DifficultyKeys(questions), hits, k, value);
      PercentageEnds(Occurrences(DifficultyKeys(questions), k));
    }
  }

  /** Every question answered correctly: a score of 100, every group at 100, one
      strength per category plus the overall one, no weakness, and the single advance
      recommendation. */
  lemma AllCorrect(questions: seq<Question>, answers: seq<Answer>, timeSpent: int)
    requires |questions| > 0 && |answers| <= |questions|
    requires forall i :: 0 <= i < |questions| ==> IsCorrect(questions[i], AnswerAt(answers, i))
    ensures var r := Analysis(questions, answers, timeSpent);
            && r.overallScore == 100
            && (forall e :: e in r.accuracyByCategory ==> e.accuracy == 100)
            && (forall e :: e in r.difficultyBreakdown ==> e.accuracy == 100)
            && |r.strengths| == |r.accuracyByCategory| + 1
            && (forall i :: 0 <= i < |r.accuracyByCategory| ==>
                  r.strengths[i] == StrongCategory(r.accuracyByCategory[i].key, 100))
            && r.strengths[|r.accuracyByCategory|] == ExcellentOverall
            && r.weaknesses == []
            && r.recommendations == [AdvanceTopics]
  {
    UniformAccuracies(questions, answers, timeSpent, true);
    var r := Analysis(questions, answers, timeSpent);
    InsightsAllFull(r.accuracyByCategory, r.difficultyBreakdown, timeSpent);
  }

  /** No question answered correctly (absent or wrong): a score of 0, every group at
      0, no strength, one weakness per category, and the recommendations are one per
      category, one per difficulty, then review and retake. */
  lemma NoneCorrect(questions: seq<Question>, answers: seq<Answer>, timeSpent: int)
    requires |questions| > 0 && |answers| <= |questions|
    requires forall i :: 0 <= i < |questions| ==> !IsCorrect(questions[i], AnswerAt(answers, i))
    ensures var r := Analysis(questions, answers, timeSpent);
            && r.overallScore == 0
            && (forall e :: e in r.accuracyByCategory ==> e.accuracy == 0)
            && (forall e :: e in r.difficultyBreakdown ==> e.accuracy == 0)
            && r.strengths == []
            && |r.weaknesses| == |r.accuracyByCategory|
            && (forall i :: 0 <= i < |r.accuracyByCategory| ==>
                  r.weaknesses[i] == WeakCategory(r.accuracyByCategory[i].key, 0))
            && |r.recommendations| == |r.accuracyByCategory| + |r.difficultyBreakdown| + 2
            && (forall i :: 0 <= i < |r.accuracyByCategory| ==>
                  r.recommendations[i] == StudyCategory(r.accuracyByCategory[i].key))
            && (forall j :: 0 <= j < |r.difficultyBreakdown| ==>
                  r.recommendations[|r.accuracyByCategory| + j] == PracticeDifficulty(r.difficultyBreakdown[j].key))
            && r.recommendations[|r.recommendations| - 2..] == [ReviewFundamentals, RetakeAssessment]
  {
    UniformAccuracies(questions, answers, timeSpent, false);
    var r := Analysis(questions, answers, timeSpent);
    InsightsAllZero(r.accuracyByCategory, r.difficultyBreakdown, timeSpent);
  }
}
