/** The scoring side of the assessment screen: the generated questions, the answer
    sheet, and the analysis report built when the quiz is finished. */
module Assessment {
  import opened Wrappers
  import opened Rounding
  import opened Grouping

  datatype Difficulty = Easy | Medium | Hard

  /** A quiz question. Its prompt, option texts and explanation are display text; the
      model keeps only how many options there are. */
  datatype Question = Question(
    id: nat,
    optionCount: nat,
    correctAnswer: nat,
    difficulty: Difficulty,
    category: string,
    aiGenerated: bool)

  /** The option index chosen for one question, `None` while it is unanswered. */
  type Answer = Option<nat>

  /** One row of `accuracyByCategory` or `difficultyBreakdown`. */
  datatype Entry<K> = Entry(key: K, accuracy: nat)

  datatype Strength = StrongCategory(category: string, accuracy: nat) | ExcellentOverall

  datatype Weakness = WeakCategory(category: string, accuracy: nat)

  datatype Recommendation =
    | StudyCategory(category: string)
    | PracticeDifficulty(difficulty: Difficulty)
    | AdvanceTopics
    | ReviewFundamentals
    | RetakeAssessment

  datatype Report = Report(
    overallScore: nat,
    strengths: seq<Strength>,
    weaknesses: seq<Weakness>,
    recommendations: seq<Recommendation>,
    timeSpent: int,
    accuracyByCategory: seq<Entry<string>>,
    difficultyBreakdown: seq<Entry<Difficulty>>)

  /** Accuracy at or above which a result is a strength. */
  const StrongFrom: nat := 80
  /** Accuracy at or below which a result is a weakness. */
  const WeakUpTo: nat := 50

  /** The question set produced for a category (the simulated generation delay
      removed): six questions of four options each, all in that category. */
  function GenerateQuestions(category: string): (qs: seq<Question>)
    ensures |qs| == 6
    ensures forall i :: 0 <= i < |qs| ==>
      && qs[i].id == i + 1
      && qs[i].category == category
      && qs[i].optionCount == 4
      && qs[i].correctAnswer < qs[i].optionCount
      && qs[i].aiGenerated
  {
    [ Question(1, 4, 1, Medium, category, true),
      Question(2, 4, 0, Hard, category, true),
      Question(3, 4, 0, Medium, category, true),
      Question(4, 4, 0, Easy, category, true),
      Question(5, 4, 0, Hard, category, true),
      Question(6, 4, 0, Medium, category, true) ]
  }

  /** `answers[i]`; reading past the end of a JavaScript array gives `undefined`. */
  function AnswerAt(answers: seq<Answer>, i: nat): Answer {
    if i < |answers| then answers[i] else None
  }

  /** `answer === question.correctAnswer`: an absent answer is never correct. */
  predicate IsCorrect(q: Question, a: Answer) {
    a == Some(q.correctAnswer)
  }

  /** Number of answered positions. */
  function Answered(answers: seq<Answer>): nat {
    if |answers| == 0 then 0
    else Answered(answers[..|answers| - 1]) + (if answers[|answers| - 1].Some? then 1 else 0)
  }

  /** `answers.filter((answer, index) => answer === questions[index].correctAnswer).length` */
  function CorrectAnswers(questions: seq<Question>, answers: seq<Answer>): (n: nat)
    requires |answers| <= |questions|
    ensures n <= Answered(answers) && n <= |answers|
  {
    if |answers| == 0 then 0
    else
      var k := |answers| - 1;
      CorrectAnswers(questions, answers[..k]) + (if IsCorrect(questions[k], answers[k]) then 1 else 0)
  }

  /** Whether each question was answered correctly, position by position. */
  function Hits(questions: seq<Question>, answers: seq<Answer>): (hs: seq<bool>)
    ensures |hs| == |questions|
    ensures forall i :: 0 <= i < |questions| ==> hs[i] == IsCorrect(questions[i], AnswerAt(answers, i))
  {
    seq(|questions|, i requires 0 <= i < |questions| => IsCorrect(questions[i], AnswerAt(answers, i)))
  }

  function CategoryKeys(questions: seq<Question>): (ks: seq<string>)
    ensures |ks| == |questions| && forall i :: 0 <= i < |questions| ==> ks[i] == questions[i].category
  {
    seq(|questions|, i requires 0 <= i < |questions| => questions[i].category)
  }

  function DifficultyKeys(questions: seq<Question>): (ks: seq<Difficulty>)
    ensures |ks| == |questions| && forall i :: 0 <= i < |questions| ==> ks[i] == questions[i].difficulty
  {
    seq(|questions|, i requires 0 <= i < |questions| => questions[i].difficulty)
  }

  /** Each group's percentage of correct answers, in the group table's key order. */
  function Accuracies<K>(gs: seq<Counter<K>>): (es: seq<Entry<K>>)
    requires WellFormed(gs)
    ensures |es| == |gs|
    ensures forall i :: 0 <= i < |gs| ==>
      es[i].key == gs[i].key && es[i].accuracy == Percentage(gs[i].correct, gs[i].total)
      && es[i].accuracy <= 100
  {
    if |gs| == 0 then []
    else
      var last := gs[|gs| - 1];
      PercentageBounds(last.correct, last.total);
      Accuracies(gs[..|gs| - 1]) + [Entry(last.key, Percentage(last.correct, last.total))]
  }

  function CategoryStrengths(acc: seq<Entry<string>>): seq<Strength> {
    if |acc| == 0 then []
    else
      var e := acc[|acc| - 1];
      CategoryStrengths(acc[..|acc| - 1]) + (if e.accuracy >= StrongFrom then [StrongCategory(e.key, e.accuracy)] else [])
  }

  function CategoryWeaknesses(acc: seq<Entry<string>>): seq<Weakness> {
    if |acc| == 0 then []
    else
      var e := acc[|acc| - 1];
      CategoryWeaknesses(acc[..|acc| - 1])
      + (if e.accuracy < StrongFrom && e.accuracy <= WeakUpTo then [WeakCategory(e.key, e.accuracy)] else [])
  }

  function CategoryRecommendations(acc: seq<Entry<string>>): seq<Recommendation> {
    if |acc| == 0 then []
    else
      var e := acc[|acc| - 1];
      CategoryRecommendations(acc[..|acc| - 1])
      + (if e.accuracy < StrongFrom && e.accuracy <= WeakUpTo then [StudyCategory(e.key)] else [])
  }

  function DifficultyRecommendations(acc: seq<Entry<Difficulty>>): seq<Recommendation> {
    if |acc| == 0 then []
    else
      var e := acc[|acc| - 1];
      DifficultyRecommendations(acc[..|acc| - 1])
      + (if e.accuracy <= WeakUpTo then [PracticeDifficulty(e.key)] else [])
  }

  function OverallStrengths(score: nat): seq<Strength> {
    if score >= StrongFrom then [ExcellentOverall] else []
  }

  function OverallRecommendations(score: nat): seq<Recommendation> {
    if score >= StrongFrom then [AdvanceTopics]
    else if score <= WeakUpTo then [ReviewFundamentals, RetakeAssessment]
    else []
  }

  function CategoryTable(questions: seq<Question>, answers: seq<Answer>): (gs: seq<Counter<string>>)
    ensures WellFormed(gs)
  {
    TallyWellFormed(CategoryKeys(questions), Hits(questions, answers));
    Tally(CategoryKeys(questions), Hits(questions, answers))
  }

  function DifficultyTable(questions: seq<Question>, answers: seq<Answer>): (gs: seq<Counter<Difficulty>>)
    ensures WellFormed(gs)
  {
    TallyWellFormed(DifficultyKeys(questions), Hits(questions, answers));
    Tally(DifficultyKeys(questions), Hits(questions, answers))
  }

  /** The report built from the overall score and the two accuracy tables: category
      insights first, then difficulty insights, then the overall ones. */
  function Insights(score: nat, byCategory: seq<Entry<string>>, byDifficulty: seq<Entry<Difficulty>>,
                    timeSpent: int): Report
  {
    Report(
      score,
      CategoryStrengths(byCategory) + OverallStrengths(score),
      CategoryWeaknesses(byCategory),
      CategoryRecommendations(byCategory) + DifficultyRecommendations(byDifficulty)
        + OverallRecommendations(score),
      timeSpent,
      byCategory,
      byDifficulty)
  }

  /** The report of one scoring pass, stated as a function of the questions, the
      answers and the elapsed time. */
  function Analysis(questions: seq<Question>, answers: seq<Answer>, timeSpent: int): Report
    requires |questions| > 0 && |answers| <= |questions|
  {
    Insights(
      Percentage(CorrectAnswers(questions, answers), |questions|),
      Accuracies(CategoryTable(questions, answers)),
      Accuracies(DifficultyTable(questions, answers)),
      timeSpent)
  }

  /** The `correctAnswers` count: one pass over the answer sheet. */
  method CountCorrect(questions: seq<Question>, answers: seq<Answer>) returns (count: nat)
    requires |answers| <= |questions|
    ensures count == CorrectAnswers(questions, answers)
  {
    count := 0;
    for i := 0 to |answers|
      invariant count == CorrectAnswers(questions, answers[..i])
    {
      assert answers[..i + 1][..i] == answers[..i];
      if answers[i] == Some(questions[i].correctAnswer) {
        count := count + 1;
      }
    }
    assert answers[..|answers|] == answers;
  }

  /** One visit of the grouping loop to a counter table, written as the screen does
      it: create the record on first sight, `total++`, and `correct++` on a hit. */
  method Record<K(==)>(table: seq<Counter<K>>, key: K, isCorrect: bool) returns (updated: seq<Counter<K>>)
    ensures updated == Bump(table, key, isCorrect)
  {
    updated := table;
    var i := IndexOf(updated, key);
    if i == |updated| {
      updated := updated + [Counter(key, 0, 0)];
    }
    updated := updated[i := updated[i].(total := updated[i].total + 1)];
    if isCorrect {
      updated := updated[i := updated[i].(correct := updated[i].correct + 1)];
    }
  }

  /** The `questions.forEach` pass that fills `categoryAnalysis` and
      `difficultyAnalysis`. */
  method GroupQuestions(questions: seq<Question>, answers: seq<Answer>)
    returns (categoryAnalysis: seq<Counter<string>>, difficultyAnalysis: seq<Counter<Difficulty>>)
    ensures categoryAnalysis == CategoryTable(questions, answers)
    ensures difficultyAnalysis == DifficultyTable(questions, answers)
  {
    ghost var hits := Hits(questions, answers);
    ghost var categories := CategoryKeys(questions);
    ghost var difficulties := DifficultyKeys(questions);
    categoryAnalysis, difficultyAnalysis := [], [];
    for i := 0 to |questions|
      invariant categoryAnalysis == Tally(categories[..i], hits[..i])
      invariant difficultyAnalysis == Tally(difficulties[..i], hits[..i])
    {
      TallyPrefixStep(categories, hits, i);
      TallyPrefixStep(difficulties, hits, i);
      var question := questions[i];
      var isCorrect := AnswerAt(answers, i) == Some(question.correctAnswer);
      assert isCorrect == hits[i];
      categoryAnalysis := Record(categoryAnalysis, question.category, isCorrect);
      difficultyAnalysis := Record(difficultyAnalysis, question.difficulty, isCorrect);
    }
    assert categories[..|questions|] == categories;
    assert difficulties[..|questions|] == difficulties;
    assert hits[..|questions|] == hits;
  }

  /** The `Object.keys(...).forEach` pass that turns each counter into a rounded
      percentage, keeping the key order. */
  method ToAccuracies<K>(table: seq<Counter<K>>) returns (accuracy: seq<Entry<K>>)
    requires WellFormed(table)
    ensures accuracy == Accuracies(table)
  {
    accuracy := [];
    for i := 0 to |table|
      invariant accuracy == Accuracies(table[..i])
    {
      assert table[..i + 1][..i] == table[..i];
      var g := table[i];
      accuracy := accuracy + [Entry(g.key, Percentage(g.correct, g.total))];
    }
    assert table[..|table|] == table;
  }

  /** The `Object.entries(accuracyByCategory).forEach` pass. */
  method CategoryInsights(accuracyByCategory: seq<Entry<string>>)
    returns (strengths: seq<Strength>, weaknesses: seq<Weakness>, recommendations: seq<Recommendation>)
    ensures strengths == CategoryStrengths(accuracyByCategory)
    ensures weaknesses == CategoryWeaknesses(accuracyByCategory)
    ensures recommendations == CategoryRecommendations(accuracyByCategory)
  {
    strengths, weaknesses, recommendations := [], [], [];
    for i := 0 to |accuracyByCategory|
      invariant strengths == CategoryStrengths(accuracyByCategory[..i])
      invariant weaknesses == CategoryWeaknesses(accuracyByCategory[..i])
      invariant recommendations == CategoryRecommendations(accuracyByCategory[..i])
    {
      assert accuracyByCategory[..i + 1][..i] == accuracyByCategory[..i];
      var e := accuracyByCategory[i];
      if e.accuracy >= StrongFrom {
        strengths := strengths + [StrongCategory(e.key, e.accuracy)];
      } else if e.accuracy <= WeakUpTo {
        weaknesses := weaknesses + [WeakCategory(e.key, e.accuracy)];
        recommendations := recommendations + [StudyCategory(e.key)];
      }
    }
    assert accuracyByCategory[..|accuracyByCategory|] == accuracyByCategory;
  }

  /** The `Object.entries(difficultyBreakdown).forEach` pass. */
  method DifficultyInsights(difficultyBreakdown: seq<Entry<Difficulty>>)
    returns (recommendations: seq<Recommendation>)
    ensures recommendations == DifficultyRecommendations(difficultyBreakdown)
  {
    recommendations := [];
    for i := 0 to |difficultyBreakdown|
      invariant recommendations == DifficultyRecommendations(difficultyBreakdown[..i])
    {
      assert difficultyBreakdown[..i + 1][..i] == difficultyBreakdown[..i];
      var e := difficultyBreakdown[i];
      if e.accuracy <= WeakUpTo {
        recommendations := recommendations + [PracticeDifficulty(e.key)];
      }
    }
    assert difficultyBreakdown[..|difficultyBreakdown|] == difficultyBreakdown;
  }

  /** The insights drawn from the overall score alone. */
  method OverallInsights(overallScore: nat) returns (strengths: seq<Strength>, recommendations: seq<Recommendation>)
    ensures strengths == OverallStrengths(overallScore)
    ensures recommendations == OverallRecommendations(overallScore)
  {
    strengths, recommendations := [], [];
    if overallScore >= StrongFrom {
      strengths := strengths + [ExcellentOverall];
      recommendations := recommendations + [AdvanceTopics];
    } else if overallScore <= WeakUpTo {
      recommendations := recommendations + [ReviewFundamentals];
      recommendations := recommendations + [RetakeAssessment];
    }
  }

  /** The scoring pass as the screen runs it: count the correct answers, group the
      questions, turn each group into a percentage, then push the insights in order:
      category entries, difficulty entries, overall entries. */
  method GenerateAnalysis(questions: seq<Question>, answers: seq<Answer>, timeSpent: int)
    returns (report: Report)
    requires |questions| > 0 && |answers| <= |questions|
    ensures report == Analysis(questions, answers, timeSpent)
  {
    var correctAnswers := CountCorrect(questions, answers);
    var overallScore := Percentage(correctAnswers, |questions|);
    var categoryAnalysis, difficultyAnalysis := GroupQuestions(questions, answers);
    var accuracyByCategory := ToAccuracies(categoryAnalysis);
    var difficultyBreakdown := ToAccuracies(difficultyAnalysis);
    var strengths, weaknesses, recommendations := CategoryInsights(accuracyByCategory);
    var practice := DifficultyInsights(difficultyBreakdown);
    var excellent, overall := OverallInsights(overallScore);
    strengths := strengths + excellent;
    recommendations := recommendations + practice + overall;
    report := Report(overallScore, strengths, weaknesses, recommendations, timeSpent,
                     accuracyByCategory, difficultyBreakdown);
    assert report == Insights(overallScore, accuracyByCategory, difficultyBreakdown, timeSpent);
  }
}
