/** The chapter quiz of the study panel: its state (App.tsx:52-57) and the
    handlers that change it — starting a quiz (App.tsx:272-280), installing the
    generated questions (App.tsx:280), choosing an option (App.tsx:847-852) and
    the "next" button (App.tsx:863-869). */
module Quiz {
  import opened Types

  class QuizSession {
    var questions: seq<QuizQuestion>  // quizQuestions
    var index: int                    // currentQuizIndex
    var score: int                    // quizScore
    var selected: Option<int>         // selectedOption
    var checked: bool                 // isAnswerChecked: the current question has been answered
    var finished: bool                // quizFinished
    ghost var answered: nat           // options actually chosen in this quiz

    /** The questions the position accounts for: those before the current
        one, and the current one while the answered flag is set. A quiz started
        after a finished one inherits that flag, so this can exceed the options
        actually chosen (`answered`). */
    function Answered(): int
      reads this
    {
      index + if checked then 1 else 0
    }

    /** The index never goes negative, the score never exceeds the options
        actually chosen, and those never exceed what the position accounts for. */
    ghost predicate Valid()
      reads this
    {
      0 <= index && 0 <= score <= answered <= Answered()
    }

    /** The initial component state. */
    constructor ()
      ensures Valid()
      ensures questions == [] && index == 0 && score == 0
      ensures selected == None && !checked && !finished && answered == 0
    {
      questions, index, score := [], 0, 0;
      selected, checked, finished := None, false, false;
      answered := 0;
    }

    /** Starting a quiz empties the questions and resets the index, the score
        and the finished flag. The chosen option and the answered flag are NOT
        reset: they keep whatever the previous quiz left in them. */
    method Start()
      requires Valid()
      modifies this
      ensures Valid()
      ensures questions == [] && index == 0 && score == 0 && !finished && answered == 0
      ensures selected == old(selected) && checked == old(checked)
    {
      questions := [];
      score := 0;
      index := 0;
      finished := false;
      answered := 0;
    }

    /** The generated questions arrive and replace the list; nothing else changes. */
    method Install(qs: seq<QuizQuestion>)
      requires Valid()
      modifies this
      ensures Valid()
      ensures questions == qs
      ensures index == old(index) && score == old(score) && selected == old(selected)
      ensures checked == old(checked) && finished == old(finished) && answered == old(answered)
    {
      questions := qs;
    }

    /** Choosing an option of the current question. Once the question is
        answered nothing changes; otherwise the option is recorded, the question
        becomes answered, and the score goes up by one exactly when the option
        is the correct one. The handler reads the current question, so the
        index must point at one. */
    method Select(option: int)
      requires Valid()
      requires index < |questions|
      modifies this
      ensures Valid()
      ensures questions == old(questions) && index == old(index) && finished == old(finished)
      ensures old(checked) ==> selected == old(selected) && checked && score == old(score) && answered == old(answered)
      ensures !old(checked) ==> selected == Some(option) && checked && answered == old(answered) + 1
      ensures !old(checked) ==>
                score == old(score) + if option == questions[index].correctIndex then 1 else 0
      ensures score <= |questions|
    {
      if checked {
        return;
      }
      selected := Some(option);
      checked := true;
      answered := answered + 1;
      if option == questions[index].correctIndex {
        score := score + 1;
      }
    }

    /** The "next" button. Before the last question it moves to the next one
        and clears the chosen option and the answered flag; on the last question
        it only marks the quiz finished. The score never changes here. */
    method Next()
      requires Valid()
      modifies this
      ensures Valid()
      ensures questions == old(questions) && score == old(score) && answered == old(answered)
      ensures old(index) < |questions| - 1 ==>
                index == old(index) + 1 && selected == None && !checked && finished == old(finished)
      ensures old(index) >= |questions| - 1 ==>
                finished && index == old(index) && selected == old(selected) && checked == old(checked)
      ensures old(index) < |questions| ==> index < |questions| && score <= |questions|
    {
      if index < |questions| - 1 {
        index := index + 1;
        selected := None;
        checked := false;
      } else {
        finished := true;
      }
    }
  }

  /** A three-question quiz answered correctly throughout ends finished with
      all three points. */
  method ThreeCorrectAnswers(qs: seq<QuizQuestion>) returns (score: int, finished: bool)
    requires |qs| == 3
    ensures score == 3 && finished
  {
    var quiz := new QuizSession();
    quiz.Start();
    quiz.Install(qs);
    quiz.Select(qs[0].correctIndex);
    quiz.Next();
    quiz.Select(qs[1].correctIndex);
    quiz.Next();
    quiz.Select(qs[2].correctIndex);
    quiz.Next();
    score, finished := quiz.score, quiz.finished;
  }

  /** Choosing a second option for an answered question keeps the first choice
      and the score. */
  method SecondChoiceIgnored(q: QuizQuestion, first: int, second: int) returns (selected: Option<int>, score: int)
    ensures selected == Some(first)
    ensures score == if first == q.correctIndex then 1 else 0
  {
    var quiz := new QuizSession();
    quiz.Start();
    quiz.Install([q]);
    quiz.Select(first);
    quiz.Select(second);
    selected, score := quiz.selected, quiz.score;
  }

  /** A quiz started right after a finished one inherits the answered flag:
      its first question ignores the reader's choice, so three correct answers
      score only two, and the position already counts one question answered
      before any option has been chosen. */
  method QuizAfterFinishedQuiz(q: QuizQuestion, first: int, qs: seq<QuizQuestion>)
    returns (answeredAtStart: int, score: int, finished: bool)
    requires |qs| == 3
    ensures answeredAtStart == 1
    ensures score == 2 && finished
  {
    var quiz := new QuizSession();
    quiz.Start();
    quiz.Install([q]);
    quiz.Select(first);
    quiz.Next();
    quiz.Start();
    quiz.Install(qs);
    answeredAtStart := quiz.Answered();
    quiz.Select(qs[0].correctIndex);
    quiz.Next();
    quiz.Select(qs[1].correctIndex);
    quiz.Next();
    quiz.Select(qs[2].correctIndex);
    quiz.Next();
    score, finished := quiz.score, quiz.finished;
  }
}
