/** The assessment screen's quiz state and the handlers that move through it. React
    state updates are modelled as sequential field updates of one object. */
module Quiz {
  import opened Wrappers
  import opened Decimal
  import opened Assessment

  /** The answer sheet after `newAnswers[index] = choice` on a copy of `answers`.
      Writing past the end of a JavaScript array leaves holes (`undefined`) in
      between. */
  function WriteSlot(answers: seq<Answer>, index: nat, choice: nat): (r: seq<Answer>)
    ensures |r| == if index < |answers| then |answers| else index + 1
    ensures AnswerAt(r, index) == Some(choice)
    ensures forall j: nat :: j != index ==> AnswerAt(r, j) == AnswerAt(answers, j)
  {
    if index < |answers| then answers[index := Some(choice)]
    else answers + seq(index - |answers|, _ => None) + [Some(choice)]
  }

  /** On the last question, with every earlier question answered and the shown one
      too, the sheet has one answer per question. */
  lemma SheetFull(questions: seq<Question>, answers: seq<Answer>, last: nat)
    ensures && last == |questions| - 1 && |answers| <= |questions|
            && (forall j :: 0 <= j < last ==> AnswerAt(answers, j).Some?)
            && AnswerAt(answers, last).Some?
            ==> && |answers| == |questions|
                && forall j :: 0 <= j < |questions| ==> answers[j].Some?
  {
    if && last == |questions| - 1 && |answers| <= |questions|
       && (forall j :: 0 <= j < last ==> AnswerAt(answers, j).Some?)
       && AnswerAt(answers, last).Some?
    {
      forall j | 0 <= j < |questions| ensures answers[j].Some? {
        assert AnswerAt(answers, j) == answers[j];
      }
    }
  }

  class Session {
    var questions: seq<Question>
    var currentQuestion: nat
    var answers: seq<Answer>
    var showResults: bool
    var analysisResult: Option<Report>

    /** The shown question exists, the sheet has no slot past the last question, and
        every question before the shown one has an answer (Next is only enabled on an
        answered question). */
    ghost predicate Valid()
      reads this
    {
      && 0 < |questions|
      && currentQuestion < |questions|
      && |answers| <= |questions|
      && forall j :: 0 <= j < currentQuestion ==> AnswerAt(answers, j).Some?
    }

    /** The screen once its first effect has generated the default question set. */
    constructor ()
      ensures Valid()
      ensures questions == GenerateQuestions("general")
      ensures currentQuestion == 0 && answers == [] && !showResults && analysisResult == None
    {
      questions := GenerateQuestions("general");
      currentQuestion := 0;
      answers := [];
      showResults := false;
      analysisResult := None;
    }

    /** The Next / Finish button is enabled once the shown question has an answer. On a
        valid session that means every question up to the shown one is answered, and on
        the last question that the sheet is full. */
    predicate NextEnabled()
      reads this
      ensures Valid() && NextEnabled() ==> forall j :: 0 <= j <= currentQuestion ==> AnswerAt(answers, j).Some?
      ensures Valid() && NextEnabled() && currentQuestion == |questions| - 1 ==>
        && |answers| == |questions|
        && forall j :: 0 <= j < |questions| ==> answers[j].Some?
    {
      SheetFull(questions, answers, currentQuestion);
      AnswerAt(answers, currentQuestion).Some?
    }

    /** The Previous button is enabled past the first question. */
    predicate PreviousEnabled()
      reads this
    {
      currentQuestion != 0
    }

    /** The value bound to the radio group: the chosen index as text, or the empty
        string while the shown question is unanswered. Parsing it back gives the chosen
        index. */
    function CurrentAnswer(): (s: string)
      reads this
      ensures s == "" <==> !NextEnabled()
      ensures NextEnabled() ==> ParseInt(s) == Some(AnswerAt(answers, currentQuestion).value as int)
    {
      match AnswerAt(answers, currentQuestion)
      case Some(choice) =>
        assert Show(choice) + [] == Show(choice);
        ParseShow(choice, []);
        Show(choice)
      case None => ""
    }

    /** Selecting an option writes the shown question's slot and no other. */
    method SelectAnswer(choice: nat)
      requires Valid()
      modifies this
      ensures Valid() && NextEnabled()
      ensures answers == WriteSlot(old(answers), currentQuestion, choice)
      ensures questions == old(questions) && currentQuestion == old(currentQuestion)
      ensures showResults == old(showResults) && analysisResult == old(analysisResult)
    {
      var newAnswers := answers;
      if currentQuestion >= |newAnswers| {
        newAnswers := newAnswers + seq(currentQuestion + 1 - |newAnswers|, _ => None);
      }
      newAnswers := newAnswers[currentQuestion := Some(choice)];
      assert newAnswers == WriteSlot(answers, currentQuestion, choice);
      answers := newAnswers;
      assert forall j: nat :: j != currentQuestion ==> AnswerAt(answers, j) == old(AnswerAt(answers, j));
    }

    /** Next moves one question on; on the last question (Finish) it runs the analysis
        over a fully answered sheet and shows the results, staying on that question. */
    method NextQuestion(timeSpent: int)
      requires Valid() && NextEnabled()
      modifies this
      ensures Valid()
      ensures questions == old(questions) && answers == old(answers)
      ensures old(currentQuestion) < |questions| - 1 ==>
        && currentQuestion == old(currentQuestion) + 1
        && showResults == old(showResults) && analysisResult == old(analysisResult)
      ensures old(currentQuestion) == |questions| - 1 ==>
        && currentQuestion == old(currentQuestion)
        && showResults
        && analysisResult == Some(Analysis(questions, answers, timeSpent))
        && |answers| == |questions|
        && forall j :: 0 <= j < |questions| ==> answers[j].Some?
    {
      if currentQuestion < |questions| - 1 {
        currentQuestion := currentQuestion + 1;
      } else {
        SheetFull(questions, answers, currentQuestion);
        var report := GenerateAnalysis(questions, answers, timeSpent);
        analysisResult := Some(report);
        showResults := true;
      }
    }

    /** Previous moves one question back, and does nothing on the first question. */
    method PreviousQuestion()
      requires Valid()
      modifies this
      ensures Valid()
      ensures currentQuestion == if old(PreviousEnabled()) then old(currentQuestion) - 1 else old(currentQuestion)
      ensures questions == old(questions) && answers == old(answers)
      ensures showResults == old(showResults) && analysisResult == old(analysisResult)
    {
      if PreviousEnabled() {
        currentQuestion := currentQuestion - 1;
      }
    }

    /** Starting over with a new category: back to the first question, an empty sheet,
        the results hidden, and that category's questions. The previous report object
        is left as it was. */
    method RegenerateQuestions(category: string)
      modifies this
      ensures Valid()
      ensures questions == GenerateQuestions(category)
      ensures currentQuestion == 0 && answers == [] && !showResults
      ensures analysisResult == old(analysisResult)
    {
      currentQuestion := 0;
      answers := [];
      showResults := false;
      questions := GenerateQuestions(category);
    }
  }
}
