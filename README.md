# Skill assessment and learning dashboard: a verified model

The application is a React front end with two screens that hold real logic.

- **Assessment screen.** The screen generates a fixed set of six multiple-choice questions for a category. It walks the learner through them with Previous / Next / Finish, and on Finish builds an analysis report:
  - the overall score, as a rounded percentage;
  - accuracy per category and per difficulty, in first-seen key order;
  - strengths (category accuracy ≥ 80, plus an overall one at a score ≥ 80);
  - weaknesses (category accuracy ≤ 50);
  - recommendations, in this order: study entries for weak categories, practice entries for weak difficulties, then the overall advance, or review and retake, entries.
- **Dashboard screen.** The screen shows a constant learning path of six modules, filtered by a difficulty selector and a case-insensitive search. It computes the time saved by skipped modules, the number skipped and the percentage skipped, and maps statuses and difficulties to colours.

The project is split into modules:
- `Rounding`: `Math.round(100 * part / whole)` on integers.
- `Decimal`: `toString` and `parseInt` on non-negative integers.
- `Grouping`: the insertion-ordered `{correct, total}` counter tables.
- `Assessment`: questions, answers, the report as functions, and the imperative scoring pass proved equal to them.
- `AnalysisProperties`: what the report promises.
- `ScoringExamples`: concrete quizzes.
- `Quiz`: the screen state as a class with its handlers.
- `Dashboard`: the dashboard.

Each loop of the scoring pass is a method that is proved equal to a recursive function over the input. The properties are proved about those functions.

JavaScript objects list string keys in first-insertion order, so each counter table is a sequence of `Counter(key, correct, total)` in that order. That order decides the order of the insight lists.

`generateAnalysis` divides each group's correct count by its total with no guard (src/components/AssessmentScreen.tsx:211-219). Every group has a total of at least 1 (`Grouping.TallyWellFormed`), so the division is always defined.

## Model

| member | source | states |
|---|---|---|
| Rounding.Percentage | src/components/AssessmentScreen.tsx:185 | The result r is the nearest integer to 100·part/whole, with ties rounded up: −whole ≤ 2(100·part − whole·r) < whole |
| Rounding.PercentageBounds | src/components/AssessmentScreen.tsx:211-213 | A part no larger than the whole gives a percentage of at most 100 |
| Rounding.PercentageEnds | src/components/AssessmentScreen.tsx:185 | All of the whole gives 100 and nothing gives 0 |
| Rounding.PercentageMonotonic | src/components/AssessmentScreen.tsx:185 | More correct answers out of the same total never give a lower percentage |
| Rounding.NoHalfWayBelowEight | src/components/AssessmentScreen.tsx:185 | For a whole below 8, 100·part/whole is never exactly half-way between two integers, so floating-point rounding and the integer model agree on every group of the six-question quiz |
| Decimal.Show | src/components/AssessmentScreen.tsx:174 | `toString` of a non-negative integer is a non-empty string of digits with no leading zero |
| Decimal.ParseInt | src/components/AssessmentScreen.tsx:150 | `parseInt` reads a plain numeral as its value, and text with no digit at all as NaN (`None`) |
| Decimal.ParseShow | src/components/AssessmentScreen.tsx:150 | `parseInt` of a number written by `toString` (and followed by a non-digit or nothing) gives the number back |
| Grouping.TallyKeys | src/components/AssessmentScreen.tsx:195-197 | The table's keys are the distinct keys, in order of first occurrence |
| Grouping.TallyCounts | src/components/AssessmentScreen.tsx:191-207 | Each counter's total is the number of questions with its key and its correct is the number of those answered correctly; no key appears twice |
| Grouping.TallyWellFormed | src/components/AssessmentScreen.tsx:195-206 | Every counter has total ≥ 1 and correct ≤ total |
| Grouping.TallySums | src/components/AssessmentScreen.tsx:191-207 | The totals add up to the number of questions and the corrects to the number of correct answers |
| Grouping.BumpCounts | src/components/AssessmentScreen.tsx:195-199 | One step of the loop keeps every counter exact for the extended question list and keeps the keys distinct |
| Grouping.BumpSums | src/components/AssessmentScreen.tsx:198-199 | One step adds exactly 1 to the sum of totals, and 1 to the sum of corrects exactly when the answer is correct |
| Assessment.GenerateQuestions | src/components/AssessmentScreen.tsx:44-135 | The generator gives six questions, ids 1 to 6, all in the requested category, four options each, a correct index inside the options, all marked AI-generated |
| Assessment.CorrectAnswers | src/components/AssessmentScreen.tsx:181-183 | An absent answer never counts, so the count is at most the number of answered positions and at most the length of the answer sheet |
| Assessment.Accuracies | src/components/AssessmentScreen.tsx:209-221 | One entry per counter, in the counters' key order, each the rounded percentage of its counter and at most 100 |
| Assessment.CountCorrect | src/components/AssessmentScreen.tsx:181-183 | The filter-and-count loop returns exactly the number of correct answers |
| Assessment.Record | src/components/AssessmentScreen.tsx:195-206 | Creating a missing counter and incrementing it gives the table after one step of the grouping loop |
| Assessment.GroupQuestions | src/components/AssessmentScreen.tsx:191-207 | The `forEach` pass builds the category table and the difficulty table defined by `Tally` |
| Assessment.ToAccuracies | src/components/AssessmentScreen.tsx:209-221 | The conversion loop returns the accuracy list of the table |
| Assessment.CategoryInsights | src/components/AssessmentScreen.tsx:228-235 | The category loop pushes exactly the category strengths, weaknesses and study recommendations, in key order |
| Assessment.DifficultyInsights | src/components/AssessmentScreen.tsx:237-241 | The difficulty loop pushes exactly the practice recommendations, in key order |
| Assessment.OverallInsights | src/components/AssessmentScreen.tsx:243-249 | The overall branch pushes the overall strength and recommendations |
| Assessment.GenerateAnalysis | src/components/AssessmentScreen.tsx:177-260 | The imperative scoring pass returns exactly the report `Analysis` defines |
| AnalysisProperties.CorrectAnswersAgree | src/components/AssessmentScreen.tsx:181-192 | The filter count equals the number of positions the grouping loop treats as correct |
| AnalysisProperties.ScoreInRange | src/components/AssessmentScreen.tsx:185 | The overall score is at most 100 and is the rounded percentage of correct answers over all questions |
| AnalysisProperties.GroupsAddUp | src/components/AssessmentScreen.tsx:191-207 | In both tables the totals add up to the number of questions and the corrects to the overall correct count |
| AnalysisProperties.AccuracyByCategory | src/components/AssessmentScreen.tsx:209-214 | The category accuracies list each category once, in first-occurrence order, each the rounded percentage of its correct answers over its (positive) number of questions |
| AnalysisProperties.DifficultyBreakdown | src/components/AssessmentScreen.tsx:216-221 | The same for difficulties |
| AnalysisProperties.CategoryListsSound | src/components/AssessmentScreen.tsx:228-235 | Every strength comes from a category at ≥ 80 and every weakness from one at ≤ 50, and the i-th study recommendation names the i-th weakness's category |
| AnalysisProperties.CategoryListsComplete | src/components/AssessmentScreen.tsx:228-235 | Every category at ≥ 80 has a strength, and every one at ≤ 50 has a weakness and a study recommendation |
| AnalysisProperties.DifficultyListSound | src/components/AssessmentScreen.tsx:237-241 | The practice recommendations are exactly those of the difficulties at ≤ 50 |
| AnalysisProperties.StrengthsInKeyOrder | src/components/AssessmentScreen.tsx:228-230 | The category strengths are exactly one per category at ≥ 80, in key order: the k-th strength is the entry at the k-th qualifying position, and there are as many as there are qualifying entries |
| AnalysisProperties.WeaknessesInKeyOrder | src/components/AssessmentScreen.tsx:231-234 | The weaknesses are exactly one per category at ≤ 50, in key order, and the k-th study recommendation names the category of the k-th weakness |
| AnalysisProperties.PracticeInKeyOrder | src/components/AssessmentScreen.tsx:237-241 | The practice recommendations are exactly one per difficulty at ≤ 50, in key order |
| AnalysisProperties.InsightsNoRepeats | src/components/AssessmentScreen.tsx:228-241 | When the accuracy lists have distinct keys, no strength, weakness, study or practice entry is repeated |
| AnalysisProperties.AccuracyKeysDistinct | src/components/AssessmentScreen.tsx:209-221 | No key appears twice in either accuracy list |
| AnalysisProperties.StudyIffWeak | src/components/AssessmentScreen.tsx:231-233 | A category gets a study recommendation if and only if its accuracy is at most 50 |
| AnalysisProperties.PracticeIffWeak | src/components/AssessmentScreen.tsx:238-239 | A difficulty gets a practice recommendation if and only if its accuracy is at most 50 |
| AnalysisProperties.InsightsCategoryVerdicts | src/components/AssessmentScreen.tsx:228-235 | For each category of a report: a strength iff ≥ 80, a weakness iff ≤ 50, a study recommendation iff ≤ 50; so never both, and neither from 51 to 79 |
| AnalysisProperties.InsightsDifficultyVerdicts | src/components/AssessmentScreen.tsx:237-241 | For each difficulty of a report: a practice recommendation iff ≤ 50 |
| AnalysisProperties.InsightsOverall | src/components/AssessmentScreen.tsx:228-249 | The overall strength and advance recommendation come iff the score is ≥ 80, and review and retake iff it is ≤ 50. The recommendation count is the weaknesses plus the practice entries plus 1, 2 or 0. The order is study entries aligned with the weaknesses, then the practice entries, then the overall ones, with review before retake. The strengths are the category strengths followed by exactly one overall strength at ≥ 80, and by none below |
| AnalysisProperties.CategoryVerdicts | src/components/AssessmentScreen.tsx:209-235 | The same verdicts for every category of the analysis report, with accuracy at most 100 |
| AnalysisProperties.DifficultyVerdicts | src/components/AssessmentScreen.tsx:216-241 | The same verdicts for every difficulty of the analysis report, with accuracy at most 100 |
| AnalysisProperties.AllStrongLists | src/components/AssessmentScreen.tsx:228-235 | With every category at ≥ 80, the k-th strength is the k-th category's, and there are no weaknesses or study entries |
| AnalysisProperties.AllWeakLists | src/components/AssessmentScreen.tsx:228-235 | With every category at ≤ 50, there are no strengths, and the k-th weakness and the k-th study entry are the k-th category's |
| AnalysisProperties.DifficultyListExtremes | src/components/AssessmentScreen.tsx:237-241 | No difficulty at ≤ 50 gives no practice entry; with all at ≤ 50, the k-th practice entry is the k-th difficulty's |
| AnalysisProperties.InsightsAllFull | src/components/AssessmentScreen.tsx:228-249 | A report at 100 everywhere lists the k-th category's strength at position k and the overall strength last, has no weaknesses, and recommends only advancing |
| AnalysisProperties.InsightsAllZero | src/components/AssessmentScreen.tsx:228-249 | A report at 0 everywhere has no strengths; the k-th weakness is the k-th category's; the recommendations are each category's study entry in order, then each difficulty's practice entry in order, then review and retake |
| AnalysisProperties.UniformAccuracies | src/components/AssessmentScreen.tsx:181-221 | When every question has the same outcome, every group's accuracy equals the overall score (100 or 0) |
| AnalysisProperties.AllCorrect | src/components/AssessmentScreen.tsx:177-260 | All answers right gives score 100, every accuracy 100, the k-th strength for the k-th category then the overall strength, no weaknesses, and the advance recommendation alone |
| AnalysisProperties.NoneCorrect | src/components/AssessmentScreen.tsx:177-260 | No answer right, including an empty sheet, gives score 0, every accuracy 0, no strengths, the k-th weakness for the k-th category, and recommendations that study each category in order, practise each difficulty in order, then review and retake |
| ScoringExamples.MixedCorrectCount | src/components/AssessmentScreen.tsx:181-183 | Three right, two wrong and one unanswered counts 3 |
| ScoringExamples.MixedCategoryTable | src/components/AssessmentScreen.tsx:191-207 | The mixed quiz groups into programming 3/3 then general 0/3 |
| ScoringExamples.MixedDifficultyTable | src/components/AssessmentScreen.tsx:191-207 | The mixed quiz groups into medium 3/6 |
| ScoringExamples.MixedQuiz | src/components/AssessmentScreen.tsx:177-260 | Programming all right and general all wrong gives score 50, accuracies programming 100 and general 0, and medium 50. The strength is programming and the weakness general, and the recommendations are study general, practice medium, review, retake |
| ScoringExamples.GeneratedCategories | src/components/AssessmentScreen.tsx:44-135 | The generated set has a single category, the requested one |
| ScoringExamples.GeneratedDifficulties | src/components/AssessmentScreen.tsx:44-135 | The generated set's difficulties first occur in the order medium, hard, easy |
| ScoringExamples.GeneratedQuizGroups | src/components/AssessmentScreen.tsx:191-221 | Scoring a generated quiz gives one category row equal to the overall score and three difficulty rows, medium, hard, easy |
| Quiz.WriteSlot | src/components/AssessmentScreen.tsx:149-151 | Writing a slot sets that slot to the choice, leaves every other slot as it was (holes read as unanswered), and grows the sheet only as far as the slot |
| Quiz.Session.constructor | src/components/AssessmentScreen.tsx:29-35 | The screen starts on question 0 of the default general set, with an empty sheet, results hidden and no report |
| Quiz.Session.NextEnabled | src/components/AssessmentScreen.tsx:625 | On a valid session, Next / Finish enabled means every question up to the shown one is answered, and on the last question that the answer sheet is full (one answer per question) |
| Quiz.Session.CurrentAnswer | src/components/AssessmentScreen.tsx:173-175 | The radio value is empty exactly when the shown question is unanswered (Next disabled); otherwise parsing it gives the chosen index |
| Quiz.Session.SelectAnswer | src/components/AssessmentScreen.tsx:148-152 | Selecting writes the shown question's slot and nothing else, changes no other state, and enables Next |
| Quiz.Session.NextQuestion | src/components/AssessmentScreen.tsx:154-161 | Below the last question the index goes up by exactly 1. On the last one the index stays, results are shown and the report is the analysis of the sheet, and every question has an answer at that point |
| Quiz.Session.PreviousQuestion | src/components/AssessmentScreen.tsx:163-167 | The index goes down by 1 when Previous is enabled (past question 0), stays otherwise, and nothing else changes |
| Quiz.Session.RegenerateQuestions | src/components/AssessmentScreen.tsx:262-268 | Back to question 0 with an empty sheet, results hidden, the new category's questions, and the old report left in place |
| Dashboard.LearningPath | src/components/DashboardScreen.tsx:18-67 | Six modules, each with a listed status and difficulty and progress at most 100 |
| Dashboard.FilteredModules | src/components/DashboardScreen.tsx:70-77 | The filter never returns more modules than the path holds |
| Dashboard.IncludesAt | src/components/DashboardScreen.tsx:73-74 | `includes` holds exactly when the pattern occurs at some position of the text |
| Dashboard.FilterIsSubsequence | src/components/DashboardScreen.tsx:70-77 | The shown modules are a subsequence of the path, in the path's order |
| Dashboard.FilterMembers | src/components/DashboardScreen.tsx:70-77 | A module is shown exactly when it is on the path and passes both the difficulty and the search test |
| Dashboard.FilterShowsAll | src/components/DashboardScreen.tsx:71-72 | Selector "all" with an empty search shows the whole path unchanged |
| Dashboard.FilterBySelectedDifficulty | src/components/DashboardScreen.tsx:71 | With a selector other than "all", every shown module has exactly that difficulty |
| Dashboard.SearchIsSubstring | src/components/DashboardScreen.tsx:72-74 | A module passes the search exactly when the lower-cased query occurs in its lower-cased name or difficulty |
| Dashboard.FilterIgnoresCase | src/components/DashboardScreen.tsx:72-74 | Queries that differ only in letter case show the same modules |
| Dashboard.ShippedIntermediate | src/components/DashboardScreen.tsx:70-77 | Selecting "intermediate" on the shipped path shows modules 2, 4 and 6 |
| Dashboard.FirstToken | src/components/DashboardScreen.tsx:126 | `split(' ')[0]` is the longest prefix without a space |
| Dashboard.Skipped | src/components/DashboardScreen.tsx:125 | The skipped filter keeps exactly the path's modules with status "skipped" |
| Dashboard.SkippedModules | src/components/DashboardScreen.tsx:129 | The skipped count is at most the number of modules |
| Dashboard.TimeSavedPercentage | src/components/DashboardScreen.tsx:130 | The time-saved percentage is at most 100 |
| Dashboard.SumOfDefined | src/components/DashboardScreen.tsx:126 | The `reduce` sum is a number exactly when every term is (one NaN makes the sum NaN) |
| Dashboard.SumOfAppend | src/components/DashboardScreen.tsx:126 | Summing two lists one after the other adds their sums |
| Dashboard.TotalTimeSaved | src/components/DashboardScreen.tsx:124-126 | The time saved is a number exactly when the time of every skipped module starts with a number, and NaN otherwise |
| Dashboard.TimeSavedAdds | src/components/DashboardScreen.tsx:124-129 | Splitting the path in two adds up both the time saved and the skipped count |
| Dashboard.HoursOfNumeral | src/components/DashboardScreen.tsx:126 | A time written as "N unit" reads as N hours |
| Dashboard.ShippedFigures | src/components/DashboardScreen.tsx:124-130 | The shipped path saves 2 hours, skips 1 module of 6, and shows 17 percent |
| Dashboard.StatusColor | src/components/DashboardScreen.tsx:94-107 | The default colour exactly for "skipped" and unlisted statuses, and never the danger colour |
| Dashboard.DifficultyColor | src/components/DashboardScreen.tsx:109-122 | The default colour exactly for unlisted difficulties |
| Dashboard.ColorsDistinguish | src/components/DashboardScreen.tsx:94-122 | Different active statuses, and different difficulty levels, never share a colour |

## Left out

- Rendering: all JSX, class names, icons, animations, `getStatusIcon` and the progress bars. `LandingPage.tsx` (a trimmed-emptiness check feeding a console log), `App.tsx` (static routes) and the build and theme configuration have no behaviour to model.
- The simulated two-second generation delay and the `isGenerating` flag: question generation is immediate in the model.
- The clock: `Date.now()` and `startTime` are not modelled, and `timeSpent` is a parameter of the analysis and of `Quiz.Session.NextQuestion`.
- `calculateProgress` and the floating-point "correct answers" figure on the results page: they only feed display values.
- Rounding.Percentage: integer half-up rounding replaces floating-point `Math.round`. `Rounding.NoHalfWayBelowEight` shows that they cannot differ on a tie for any group of fewer than 8 questions. Other floating-point effects are not modelled.
- Quiz.Session.SelectAnswer: takes the chosen option index as a number. The radio group only ever passes the text of an option index, and `Decimal.ParseShow` shows that parsing gives that index back. `parseInt` of arbitrary text is not modelled.
- Decimal.ParseInt: models decimal `parseInt` with leading whitespace, an optional sign and leading digits. Only ASCII white space is skipped: the Unicode white space and line terminators that JavaScript's `parseInt` also skips (U+00A0, U+FEFF, U+2028 and others) are not. Hexadecimal prefixes and radix arguments are not modelled either.
- Dashboard.Lower: lower-cases ASCII letters only. Unicode case mapping is not modelled.
- Quiz.Session.constructor: starts from the generated default question set. The brief first render with no questions, which renders nothing, is not modelled.
- Question prompts, option texts, explanations and the wording of the insight strings are abstracted. A question keeps its option count, and each insight is a constructor carrying its category or difficulty and its accuracy.
- Grouping.Tally: keeps every key in first-insertion order. A JavaScript object lists keys that look like array indices (such as "3") first, in numeric order. Category names are also assumed not to be names of `Object.prototype` members (`constructor`, `toString`, `__proto__` and the like). For such a key the screen's `!categoryAnalysis[key]` test sees the inherited property, creates no counter, and the category never reaches `accuracyByCategory`. The model gives every key a counter. The screen only passes the categories `general`, `programming` and `ai`, and difficulties are `easy`, `medium` or `hard`, so neither case arises there.
- React state batching and asynchrony: each handler is a sequential update of the session's fields.
