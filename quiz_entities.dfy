/** Rows of the quiz question bank: the `questions` and `answer_options` tables. */
module QuizEntities {

  /** A row of `questions`, keyed by `id`. */
  datatype QuestionEntity = QuestionEntity(id: int, text: string)

  /** A row of `answer_options`, keyed by `id`; `questionId` names the question it belongs to. */
  datatype AnswerOptionEntity = AnswerOptionEntity(id: int, questionId: int, text: string, isCorrect: bool)

  function QuestionKey(q: QuestionEntity): int { q.id }

  function OptionKey(o: AnswerOptionEntity): int { o.id }

  /** How many of the options are marked correct, counting repeats. */
  function CountCorrect(options: seq<AnswerOptionEntity>): (n: nat)
    ensures n <= |options|
    ensures n == 0 <==> forall i :: 0 <= i < |options| ==> !options[i].isCorrect
  {
    if options == [] then 0
    else (if options[0].isCorrect then 1 else 0) + CountCorrect(options[1..])
  }

  /** Four options hold as many correct ones as are marked among them. */
  lemma CountCorrectOfFour(a: AnswerOptionEntity, b: AnswerOptionEntity, c: AnswerOptionEntity, d: AnswerOptionEntity)
    ensures CountCorrect([a, b, c, d])
            == (if a.isCorrect then 1 else 0) + (if b.isCorrect then 1 else 0)
               + (if c.isCorrect then 1 else 0) + (if d.isCorrect then 1 else 0)
  {
    assert [d][1..] == [];
    assert CountCorrect([d]) == (if d.isCorrect then 1 else 0);
    assert [c, d][1..] == [d];
    assert CountCorrect([c, d]) == (if c.isCorrect then 1 else 0) + CountCorrect([d]);
    assert [b, c, d][1..] == [c, d];
    assert CountCorrect([b, c, d]) == (if b.isCorrect then 1 else 0) + CountCorrect([c, d]);
    assert [a, b, c, d][1..] == [b, c, d];
  }
}
