/**
  The quiz store (`QuizDao`): the `questions` and `answer_options` tables held in memory.
  One-shot queries are functions of the table contents; inserts and clears are methods of
  `QuizDb` that say exactly what each table holds afterwards.
 */
module QuizDao {
  import opened Tables
  import opened QuizEntities

  /** A question together with its answer options, as the quiz screen consumes it. */
  datatype QuestionWithOptions = QuestionWithOptions(id: int, text: string, options: seq<AnswerOptionEntity>)

  /** The contents of both tables; every row is stored under its own primary key. */
  datatype QuizTables = QuizTables(questions: map<int, QuestionEntity>, options: map<int, AnswerOptionEntity>)
  {
    ghost predicate Valid() {
      KeyedBy(questions, QuestionKey) && KeyedBy(options, OptionKey)
    }
  }

  /** `SELECT * FROM questions ORDER BY id ASC` */
  function GetQuestionsOnce(t: QuizTables): (r: seq<QuestionEntity>)
    requires t.Valid()
    ensures |r| == |t.questions|
    ensures forall q :: q in r <==> q in t.questions.Values
    ensures forall i, j :: 0 <= i < j < |r| ==> r[i].id < r[j].id
  {
    RowsAscending(t.questions, QuestionKey)
  }

  /** `SELECT * FROM answer_options WHERE questionId = :questionId ORDER BY id ASC` */
  function GetOptionsOnce(t: QuizTables, questionId: int): (r: seq<AnswerOptionEntity>)
    requires t.Valid()
    ensures forall o :: o in r <==> o in t.options.Values && o.questionId == questionId
    ensures forall i, j :: 0 <= i < j < |r| ==> r[i].id < r[j].id
  {
    var w := Where(t.options, (o: AnswerOptionEntity) => o.questionId == questionId);
    RowsAscending(w, OptionKey)
  }

  /** `SELECT COUNT(*) FROM questions` */
  function CountQuestions(t: QuizTables): (n: nat)
    requires t.Valid()
    ensures n == |GetQuestionsOnce(t)|
    ensures n == 0 <==> t.questions == map[]
  {
    |t.questions|
  }

  class QuizDb {
    var questions: map<int, QuestionEntity>
    var options: map<int, AnswerOptionEntity>

    function Tables(): QuizTables
      reads this
    {
      QuizTables(questions, options)
    }

    ghost predicate Valid()
      reads this
    {
      Tables().Valid()
    }

    /** An empty store. */
    constructor ()
      ensures Valid() && questions == map[] && options == map[]
    {
      questions := map[];
      options := map[];
    }

    /** `@Insert(onConflict = REPLACE)` of several questions, one after another. */
    method InsertQuestions(qs: seq<QuestionEntity>)
      requires Valid()
      modifies this
      ensures Valid()
      ensures questions == old(questions) + ByKey(qs, QuestionKey)
      ensures options == old(options)
    {
      for i := 0 to |qs|
        invariant Valid()
        invariant questions == old(questions) + ByKey(qs[..i], QuestionKey)
        invariant options == old(options)
      {
        ghost var done := qs[..i + 1];
        assert done[..i] == qs[..i] && done[i] == qs[i];
        assert ByKey(done, QuestionKey) == ByKey(qs[..i], QuestionKey)[qs[i].id := qs[i]];
        UnionThenUpdate(old(questions), ByKey(qs[..i], QuestionKey), qs[i].id, qs[i]);
        questions := questions[qs[i].id := qs[i]];
      }
      assert qs[..|qs|] == qs;
    }

    /** `@Insert(onConflict = REPLACE)` of several answer options, one after another. */
    method InsertOptions(os: seq<AnswerOptionEntity>)
      requires Valid()
      modifies this
      ensures Valid()
      ensures options == old(options) + ByKey(os, OptionKey)
      ensures questions == old(questions)
    {
      for i := 0 to |os|
        invariant Valid()
        invariant options == old(options) + ByKey(os[..i], OptionKey)
        invariant questions == old(questions)
      {
        ghost var done := os[..i + 1];
        assert done[..i] == os[..i] && done[i] == os[i];
        assert ByKey(done, OptionKey) == ByKey(os[..i], OptionKey)[os[i].id := os[i]];
        UnionThenUpdate(old(options), ByKey(os[..i], OptionKey), os[i].id, os[i]);
        options := options[os[i].id := os[i]];
      }
      assert os[..|os|] == os;
    }

    /** `DELETE FROM questions` */
    method ClearQuestions()
      requires Valid()
      modifies this
      ensures Valid()
      ensures questions == map[] && options == old(options)
    {
      questions := map[];
    }

    /** `DELETE FROM answer_options` */
    method ClearOptions()
      requires Valid()
      modifies this
      ensures Valid()
      ensures options == map[] && questions == old(questions)
    {
      options := map[];
    }
  }
}
