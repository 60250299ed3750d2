/** The quiz maker screen: it asks the service for a five-question quiz on a
    topic, shows it with the correct options marked, and prints a student
    copy and a teacher answer key. */
module QuizMaker {
  import opened Wrappers
  import opened Errors
  import opened Strings
  import opened Types
  import opened GeminiService

  const QuizGrade := "General"
  const QuizLength := 5
  const GenerateFailedAlert := "Failed to generate quiz. " + "Please try again."

  // ---------------------------------------------------------------------------
  // Rendering
  // ---------------------------------------------------------------------------

  /** A question as the student copy shows it: its number, its text and its
      options in their given order. */
  datatype StudentBlock = StudentBlock(number: nat, question: string, options: seq<string>)

  /** A question as the answer key shows it. */
  datatype TeacherBlock = TeacherBlock(number: nat, question: string, correctAnswer: string, explanation: string)

  /** The student blocks of `qs`, numbered from `first`. */
  function StudentBlocksFrom(qs: seq<QuizQuestion>, first: nat): (r: seq<StudentBlock>)
    ensures |r| == |qs|
    ensures forall i :: 0 <= i < |qs| ==> r[i] == StudentBlock(first + i, qs[i].question, qs[i].options)
    decreases |qs|
  {
    if qs == [] then []
    else [StudentBlock(first, qs[0].question, qs[0].options)] + StudentBlocksFrom(qs[1..], first + 1)
  }

  /** The teacher blocks of `qs`, numbered from `first`. */
  function TeacherBlocksFrom(qs: seq<QuizQuestion>, first: nat): (r: seq<TeacherBlock>)
    ensures |r| == |qs|
    ensures forall i :: 0 <= i < |qs| ==>
      r[i] == TeacherBlock(first + i, qs[i].question, qs[i].correctAnswer, qs[i].explanation)
    decreases |qs|
  {
    if qs == [] then []
    else [TeacherBlock(first, qs[0].question, qs[0].correctAnswer, qs[0].explanation)] + TeacherBlocksFrom(qs[1..], first + 1)
  }

  /** `studentContent`: one block per question, numbered 1, 2, ... */
  function StudentBlocks(qs: seq<QuizQuestion>): (r: seq<StudentBlock>)
    ensures |r| == |qs|
    ensures forall i :: 0 <= i < |qs| ==> r[i].number == i + 1 && r[i].question == qs[i].question
  {
    StudentBlocksFrom(qs, 1)
  }

  /** `teacherContent`: one block per question, numbered 1, 2, ... */
  function TeacherBlocks(qs: seq<QuizQuestion>): (r: seq<TeacherBlock>)
    ensures |r| == |qs|
    ensures forall i :: 0 <= i < |qs| ==> r[i].number == i + 1 && r[i].correctAnswer == qs[i].correctAnswer
  {
    TeacherBlocksFrom(qs, 1)
  }

  /** Both copies number the same questions alike: block `i` of each is
      question `i + 1`, with the same text. */
  lemma CopiesAgree(qs: seq<QuizQuestion>, i: nat)
    requires i < |qs|
    ensures StudentBlocks(qs)[i].number == TeacherBlocks(qs)[i].number == i + 1
    ensures StudentBlocks(qs)[i].question == TeacherBlocks(qs)[i].question == qs[i].question
  {
  }

  /** Rendering the questions of a longer quiz renders the first part, then
      the rest numbered on from where the first part stopped. */
  lemma StudentBlocksAppend(a: seq<QuizQuestion>, b: seq<QuizQuestion>, first: nat)
    ensures StudentBlocksFrom(a + b, first) == StudentBlocksFrom(a, first) + StudentBlocksFrom(b, first + |a|)
  {
    var whole := StudentBlocksFrom(a + b, first);
    var parts := StudentBlocksFrom(a, first) + StudentBlocksFrom(b, first + |a|);
    forall i | 0 <= i < |whole|
      ensures whole[i] == parts[i]
    {
      if i >= |a| {
        assert (a + b)[i] == b[i - |a|];
      }
    }
  }

  /** `isCorrect`: an option is marked exactly when it equals the answer. */
  predicate IsCorrect(option: string, q: QuizQuestion) {
    option == q.correctAnswer
  }

  /** The number of options marked correct. */
  function MarkedCount(options: seq<string>, answer: string): (n: nat)
    ensures n <= |options|
    decreases |options|
  {
    if options == [] then 0
    else (if options[0] == answer then 1 else 0) + MarkedCount(options[1..], answer)
  }

  /** The options marked correct are as many as the occurrences of the
      answer among the options: none when it matches no option, two when it
      is listed twice. */
  lemma {:induction false} MarkedCountIsOccurrences(options: seq<string>, answer: string)
    ensures MarkedCount(options, answer) == multiset(options)[answer]
    decreases |options|
  {
    if options != [] {
      assert options == [options[0]] + options[1..];
      assert multiset(options) == multiset([options[0]]) + multiset(options[1..]);
      MarkedCountIsOccurrences(options[1..], answer);
    }
  }

  /** The printed page: the quiz title, the topic, the score line's
      denominator and both copies. */
  datatype PrintSheet = PrintSheet(
    title: string,
    topic: string,
    scoreOutOf: nat,
    student: seq<StudentBlock>,
    teacher: seq<TeacherBlock>)

  function Sheet(topic: string, quiz: Quiz): (s: PrintSheet)
    ensures s.scoreOutOf == |quiz.questions| == |s.student| == |s.teacher|
    ensures s.title == quiz.title && s.topic == topic
  {
    PrintSheet(quiz.title, topic, |quiz.questions|, StudentBlocks(quiz.questions), TeacherBlocks(quiz.questions))
  }

  // ---------------------------------------------------------------------------
  // The screen
  // ---------------------------------------------------------------------------

  class Maker {
    var topic: string
    var loading: bool
    var quiz: Option<Quiz>

    constructor()
      ensures topic == "" && !loading && quiz == None
    {
      topic := "";
      loading := false;
      quiz := None;
    }

    method SetTopic(t: string)
      modifies this
      ensures topic == t && loading == old(loading) && quiz == old(quiz)
    {
      topic := t;
    }

    /** The generate button's `disabled` attribute. */
    predicate GenerateDisabled()
      reads this
    {
      loading || topic == ""
    }

    /** `handleGenerate`, with the backend's reply and the JSON parser as
        inputs. An empty topic does nothing. Otherwise the old quiz is
        dropped and five questions for grade "General" are requested; the
        parsed quiz is shown, or an alert raised with no quiz shown. */
    method HandleGenerate(reply: Reply, parse: string -> Result<Quiz, Thrown>)
      returns (sent: Option<Request>, alert: Option<string>)
      modifies this
      ensures topic == old(topic)
      ensures old(topic) == "" ==> sent == None && alert == None && quiz == old(quiz) && loading == old(loading)
      ensures old(topic) != "" ==>
        && sent == Some(QuizRequest(old(topic), QuizGrade, QuizLength))
        && !loading
        && var result := GenerateQuiz(old(topic), QuizGrade, QuizLength, reply, parse).result;
          && (result.Success? ==> quiz == Some(result.value) && alert == None)
          && (result.Failure? ==> quiz == None && alert == Some(GenerateFailedAlert))
    {
      if topic == "" {
        return None, None;
      }
      loading := true;
      quiz := None;
      var c := GenerateQuiz(topic, QuizGrade, QuizLength, reply, parse);
      sent := Some(c.request);
      alert := None;
      if c.result.Success? {
        quiz := Some(c.result.value);
      } else {
        alert := Some(GenerateFailedAlert);
      }
      loading := false;
    }

    /** `handlePrint`: nothing without a quiz or when the print window
        cannot be opened; otherwise both copies of the shown quiz. */
    method HandlePrint(windowOpened: bool) returns (sheet: Option<PrintSheet>)
      ensures quiz.None? || !windowOpened ==> sheet == None
      ensures quiz.Some? && windowOpened ==> sheet == Some(Sheet(topic, quiz.value))
    {
      if quiz.None? || !windowOpened {
        return None;
      }
      sheet := Some(Sheet(topic, quiz.value));
    }
  }
}
