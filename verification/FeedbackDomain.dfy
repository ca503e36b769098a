/** Entities of the feedback-form module. A nil and an empty list are one value here,
    as they are once the row has been through its JSON column. */
module FeedbackDomain {
  import opened Text

  datatype Result<+T, +E> = Ok(value: T) | Err(error: E)

  /** The question type is a free string on the wire: `Other` is every unknown one. */
  datatype QuestionType = Rating | FreeText | Choice | NPS | Other(name: string)
  {
    predicate Valid() {
      !Other?
    }
  }

  datatype Question = Question(id: string, kind: QuestionType, caption: string, description: string, required: bool,
                               scale: int, options: seq<string>, multiple: bool, minLabel: string, maxLabel: string)

  ghost predicate DistinctIds(qs: seq<Question>) {
    forall i, j :: 0 <= i < j < |qs| ==> qs[i].id != qs[j].id
  }

  datatype Suggestion = Suggestion(kind: QuestionType, caption: string, description: string,
                                   scale: int, options: seq<string>, multiple: bool, minLabel: string, maxLabel: string)

  datatype Answer = Answer(questionId: string, text: string, rating: Option<int>, choice: seq<string>)

  datatype Language = Indonesian | English | OtherLanguage(code: string)
  {
    predicate Valid() {
      !OtherLanguage?
    }
  }
}
