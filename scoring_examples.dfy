/** The scoring rules on concrete quizzes: the worked example of a mixed quiz, and the
    question set the screen generates. */
module ScoringExamples {
  import opened Wrappers
  import opened Rounding
  import opened Grouping
  import opened Assessment
  import AnalysisProperties

  /** Three "programming" questions answered correctly, three "general" ones not. */
  function MixedQuestions(): seq<Question> {
    [ Question(1, 4, 0, Medium, "programming", true),
      Question(2, 4, 0, Medium, "programming", true),
      Question(3, 4, 0, Medium, "programming", true),
      Question(4, 4, 0, Medium, "general", true),
      Question(5, 4, 0, Medium, "general", true),
      Question(6, 4, 0, Medium, "general", true) ]
  }

  function MixedAnswers(): seq<Answer> {
    [Some(0), Some(0), Some(0), Some(1), Some(1), None]
  }

  lemma MixedCorrectCount()
    ensures CorrectAnswers(MixedQuestions(), MixedAnswers()) == 3
  {
    var qs, answers := MixedQuestions(), MixedAnswers();
    assert CorrectAnswers(qs, answers[..1]) == 1;
    assert answers[..2][..1] == answers[..1];
    assert CorrectAnswers(qs, answers[..2]) == 2;
    assert answers[..3][..2] == answers[..2];
    assert CorrectAnswers(qs, answers[..3]) == 3;
    assert answers[..4][..3] == answers[..3];
    assert CorrectAnswers(qs, answers[..4]) == 3;
    assert answers[..5][..4] == answers[..4];
    assert CorrectAnswers(qs, answers[..5]) == 3;
    assert answers[..6] == answers;
    assert answers[..6][..5] == answers[..5];
    assert CorrectAnswers(qs, answers) == 3;
  }

  const P := "programming"
  const G := "general"

  lemma MixedHits()
    ensures Hits(MixedQuestions(), MixedAnswers()) == [true, true, true, false, false, false]
  {
  }

  lemma MixedKeys()
    ensures CategoryKeys(MixedQuestions()) == [P, P, P, G, G, G]
    ensures DifficultyKeys(MixedQuestions()) == [Medium, Medium, Medium, Medium, Medium, Medium]
  {
  }

  /** Three correct answers in one group. */
  lemma ThreeHits<K>(k: K)
    ensures Tally([k, k, k], [true, true, true]) == [Counter(k, 3, 3)]
  {
    assert Tally([k], [true]) == [Counter(k, 1, 1)] by {
      TallySnoc([], [], k, true);
      BumpFresh([], k, true);
      assert [] + [k] == [k] && [] + [true] == [true];
    }
    assert Tally([k, k], [true, true]) == [Counter(k, 2, 2)] by {
      TallySnoc([k], [true], k, true);
      BumpAt([Counter(k, 1, 1)], 0, k, true);
      assert [k] + [k] == [k, k] && [true] + [true] == [true, true];
    }
    TallySnoc([k, k], [true, true], k, true);
    BumpAt([Counter(k, 2, 2)], 0, k, true);
    assert [k, k] + [k] == [k, k, k] && [true, true] + [true] == [true, true, true];
  }

  lemma GeneralTally()
    ensures Tally([P, P, P, G, G, G], [true, true, true, false, false, false]) ==
      [Counter(P, 3, 3), Counter(G, 0, 3)]
  {
    ThreeHits(P);
    TallySnoc([P, P, P], [true, true, true], G, false);
    BumpFresh([Counter(P, 3, 3)], G, false);
    assert [P, P, P] + [G] == [P, P, P, G];
    assert [true, true, true] + [false] == [true, true, true, false];
    assert Tally([P, P, P, G], [true, true, true, false]) == [Counter(P, 3, 3), Counter(G, 0, 1)];
    TallySnoc([P, P, P, G], [true, true, true, false], G, false);
    BumpAt([Counter(P, 3, 3), Counter(G, 0, 1)], 1, G, false);
    assert [P, P, P, G] + [G] == [P, P, P, G, G];
    assert [true, true, true, false] + [false] == [true, true, true, false, false];
    assert Tally([P, P, P, G, G], [true, true, true, false, false]) == [Counter(P, 3, 3), Counter(G, 0, 2)];
    TallySnoc([P, P, P, G, G], [true, true, true, false, false], G, false);
    BumpAt([Counter(P, 3, 3), Counter(G, 0, 2)], 1, G, false);
    assert [P, P, P, G, G] + [G] == [P, P, P, G, G, G];
    assert [true, true, true, false, false] + [false] == [true, true, true, false, false, false];
  }

  lemma MediumTally()
    ensures Tally([Medium, Medium, Medium, Medium, Medium, Medium], [true, true, true, false, false, false]) ==
      [Counter(Medium, 3, 6)]
  {
    var m := Medium;
    ThreeHits(m);
    TallySnoc([m, m, m], [true, true, true], m, false);
    BumpAt([Counter(m, 3, 3)], 0, m, false);
    assert [m, m, m] + [m] == [m, m, m, m];
    assert [true, true, true] + [false] == [true, true, true, false];
    assert Tally([m, m, m, m], [true, true, true, false]) == [Counter(m, 3, 4)];
    TallySnoc([m, m, m, m], [true, true, true, false], m, false);
    BumpAt([Counter(m, 3, 4)], 0, m, false);
    assert [m, m, m, m] + [m] == [m, m, m, m, m];
    assert [true, true, true, false] + [false] == [true, true, true, false, false];
    assert Tally([m, m, m, m, m], [true, true, true, false, false]) == [Counter(m, 3, 5)];
    TallySnoc([m, m, m, m, m], [true, true, true, false, false], m, false);
    BumpAt([Counter(m, 3, 5)], 0, m, false);
    assert [m, m, m, m, m] + [m] == [m, m, m, m, m, m];
    assert [true, true, true, false, false] + [false] == [true, true, true, false, false, false];
  }

  lemma MixedCategoryTable()
    ensures CategoryTable(MixedQuestions(), MixedAnswers()) == [Counter(P, 3, 3), Counter(G, 0, 3)]
  {
    MixedHits();
    MixedKeys();
    GeneralTally();
  }

  lemma MixedDifficultyTable()
    ensures DifficultyTable(MixedQuestions(), MixedAnswers()) == [Counter(Medium, 3, 6)]
  {
    MixedHits();
    MixedKeys();
    MediumTally();
  }

  /** The worked example of the scoring rules: all of "programming" right and all of
      "general" wrong gives 100 and 0 per category and 50 overall; "programming" is a
      strength, "general" a weakness, and a score of exactly 50 still brings the review
      and retake recommendations. */
  lemma MixedQuiz()
    ensures var r := Analysis(MixedQuestions(), MixedAnswers(), 42);
            && r.overallScore == 50
            && r.accuracyByCategory == [Entry("programming", 100), Entry("general", 0)]
            && r.difficultyBreakdown == [Entry(Medium, 50)]
            && r.strengths == [StrongCategory("programming", 100)]
            && r.weaknesses == [WeakCategory("general", 0)]
            && r.recommendations == [StudyCategory("general"), PracticeDifficulty(Medium),
                                     ReviewFundamentals, RetakeAssessment]
  {
    MixedReportInputs();
    MixedInsights();
  }

  /** The score and the two accuracy tables of the mixed quiz. */
  lemma MixedReportInputs()
    ensures Analysis(MixedQuestions(), MixedAnswers(), 42) ==
      Insights(50, [Entry(P, 100), Entry(G, 0)], [Entry(Medium, 50)], 42)
  {
    MixedCorrectCount();
    MixedCategoryTable();
    MixedDifficultyTable();
    assert Accuracies([Counter(P, 3, 3), Counter(G, 0, 3)]) == [Entry(P, 100), Entry(G, 0)];
    assert Accuracies([Counter(Medium, 3, 6)]) == [Entry(Medium, 50)];
    assert Percentage(3, 6) == 50;
  }

  /** The insights drawn from the mixed quiz's score and tables. */
  lemma MixedInsights()
    ensures var r := Insights(50, [Entry(P, 100), Entry(G, 0)], [Entry(Medium, 50)], 42);
            && r.strengths == [StrongCategory(P, 100)]
            && r.weaknesses == [WeakCategory(G, 0)]
            && r.recommendations == [StudyCategory(G), PracticeDifficulty(Medium),
                                     ReviewFundamentals, RetakeAssessment]
  {
    var byCategory, byDifficulty := [Entry(P, 100), Entry(G, 0)], [Entry(Medium, 50)];
    assert byCategory[..1] == [Entry(P, 100)] && byCategory[..1][..0] == [];
    assert byDifficulty[..0] == [];
    assert CategoryStrengths(byCategory[..1]) == [StrongCategory(P, 100)];
    assert CategoryWeaknesses(byCategory[..1]) == [];
    assert CategoryRecommendations(byCategory[..1]) == [];
    assert CategoryStrengths(byCategory) == [StrongCategory(P, 100)];
    assert CategoryWeaknesses(byCategory) == [WeakCategory(G, 0)];
    assert CategoryRecommendations(byCategory) == [StudyCategory(G)];
    assert DifficultyRecommendations(byDifficulty) == [PracticeDifficulty(Medium)];
  }

  lemma {:induction false} HitsOfSingleKey<K>(keys: seq<K>, hits: seq<bool>, k: K)
    requires |keys| == |hits| && forall i :: 0 <= i < |keys| ==> keys[i] == k
    ensures HitsOf(keys, hits, k) == CountTrue(hits) && Occurrences(keys, k) == |keys|
  {
    if |keys| > 0 {
      HitsOfSingleKey(keys[..|keys| - 1], hits[..|hits| - 1], k);
    }
  }

  lemma GeneratedCategories(c: string)
    ensures FirstOccurrences(CategoryKeys(GenerateQuestions(c))) == [c]
  {
    var keys := CategoryKeys(GenerateQuestions(c));
    assert keys == [c, c, c, c, c, c];
    assert FirstOccurrences(keys[..1]) == [c];
    assert keys[..2][..1] == keys[..1];
    assert FirstOccurrences(keys[..2]) == [c];
    assert keys[..3][..2] == keys[..2];
    assert FirstOccurrences(keys[..3]) == [c];
    assert keys[..4][..3] == keys[..3];
    assert FirstOccurrences(keys[..4]) == [c];
    assert keys[..5][..4] == keys[..4];
    assert FirstOccurrences(keys[..5]) == [c];
    assert keys[..6][..5] == keys[..5] && keys[..6] == keys;
  }

  lemma GeneratedDifficulties(c: string)
    ensures FirstOccurrences(DifficultyKeys(GenerateQuestions(c))) == [Medium, Hard, Easy]
  {
    var levels := DifficultyKeys(GenerateQuestions(c));
    assert levels == [Medium, Hard, Medium, Easy, Hard, Medium];
    assert FirstOccurrences(levels[..1]) == [Medium];
    assert levels[..2][..1] == levels[..1];
    assert FirstOccurrences(levels[..2]) == [Medium, Hard];
    assert levels[..3][..2] == levels[..2];
    assert FirstOccurrences(levels[..3]) == [Medium, Hard];
    assert levels[..4][..3] == levels[..3];
    assert FirstOccurrences(levels[..4]) == [Medium, Hard, Easy];
    assert levels[..5][..4] == levels[..4];
    assert FirstOccurrences(levels[..5]) == [Medium, Hard, Easy];
    assert levels[..6][..5] == levels[..5] && levels[..6] == levels;
  }

  /** The generated question set, whatever the answers: a single category row, for the
      requested category, whose accuracy is the overall score; and the difficulty rows
      in order of first appearance, medium, hard, easy. */
  lemma GeneratedQuizGroups(category: string, answers: seq<Answer>, timeSpent: int)
    requires |answers| <= 6
    ensures var r := Analysis(GenerateQuestions(category), answers, timeSpent);
            && |r.accuracyByCategory| == 1
            && r.accuracyByCategory[0] == Entry(category, r.overallScore)
            && |r.difficultyBreakdown| == 3
            && r.difficultyBreakdown[0].key == Medium
            && r.difficultyBreakdown[1].key == Hard
            && r.difficultyBreakdown[2].key == Easy
  {
    var qs := GenerateQuestions(category);
    var keys, hits := CategoryKeys(qs), Hits(qs, answers);
    AnalysisProperties.AccuracyByCategory(qs, answers, timeSpent);
    AnalysisProperties.DifficultyBreakdown(qs, answers, timeSpent);
    AnalysisProperties.CorrectAnswersAgree(qs, answers);
    HitsOfSingleKey(keys, hits, category);
    GeneratedCategories(category);
    GeneratedDifficulties(category);
  }
}
