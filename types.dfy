/** The records shared between the service layer and the views. */
module Types {

  /** One multiple-choice question; `correctAnswer` is meant to equal one of the options. */
  datatype QuizQuestion = QuizQuestion(question: string, options: seq<string>, correctAnswer: string, explanation: string)

  datatype Quiz = Quiz(title: string, questions: seq<QuizQuestion>)

  /** The lesson planner's form; `duration` is free text such as "45 mins". */
  datatype LessonPlanConfig = LessonPlanConfig(topic: string, gradeLevel: string, subject: string, duration: string, focus: string)
}
