/**
  `QuizViewModel`: the quiz progression state machine. Answering is specified by the pure
  function `Answer` over a `Session` (index, attempts, error flag, error message); the class
  `QuizViewModel` holds the same six mutable fields as the source and its methods are proved
  against `Answer`. The `onComplete` and `onFail` callbacks are counted in ghost fields.
 */
module QuizViewModel {
  import opened Optional
  import opened QuizEntities
  import opened QuizDao

  /** Shown after the first wrong answer. */
  const TryAgainMessage: string := "Pensa bem..."

  /** Shown when the second wrong answer in a row restarts the quiz. */
  const RestartMessage: string := "Pra um ser inteligente...enfim!... Vamos recomeçar!"

  /** Which callback one answer invokes, if any. */
  datatype Signal = NoCallback | OnComplete | OnFail

  /** The answer-related state of the view model. */
  datatype Session = Session(index: int, attempts: int, showError: bool, errorMessage: string)

  /** The session of a freshly created view model. */
  const InitialSession := Session(0, 0, false, "")

  /** Kotlin's `firstOrNull { it.id == id }`: the first option carrying `id`, if any. */
  function FirstWithId(options: seq<AnswerOptionEntity>, id: int): (r: Option<AnswerOptionEntity>)
    ensures r.None? <==> forall i :: 0 <= i < |options| ==> options[i].id != id
    ensures r.Some? ==> exists i :: 0 <= i < |options| && options[i] == r.value
                          && forall j :: 0 <= j < i ==> options[j].id != id
    ensures r.Some? ==> r.value.id == id
  {
    if options == [] then None
    else if options[0].id == id then Some(options[0])
    else
      var rest := FirstWithId(options[1..], id);
      if rest.Some? then
        var i :| 0 <= i < |options[1..]| && options[1..][i] == rest.value
                 && forall j :: 0 <= j < i ==> options[1..][j].id != id;
        assert options[i + 1] == rest.value;
        rest
      else rest
  }

  /** Selecting `id` on `q` picks an option that is marked correct. */
  predicate IsCorrectChoice(q: QuestionWithOptions, id: int) {
    var selected := FirstWithId(q.options, id);
    selected.Some? && selected.value.isCorrect
  }

  /**
    `checkAnswer` on the session `s` over `questions`: a correct choice resets the attempts and
    either moves to the next question or, on the last one, completes the quiz; a wrong or
    unknown choice counts an attempt, and the second one restarts the quiz from question 0.
   */
  function Answer(questions: seq<QuestionWithOptions>, s: Session, selectedOptionId: int): (r: (Session, Signal))
    requires 0 <= s.index < |questions|
    ensures 0 <= r.0.index < |questions|
    ensures s.attempts >= 0 ==> 0 <= r.0.attempts <= 1
    ensures r.1 == OnComplete ==> s.index == |questions| - 1 && r.0.index == s.index
    ensures r.1 == OnFail ==> r.0.index == 0
  {
    if IsCorrectChoice(questions[s.index], selectedOptionId) then
      if s.index < |questions| - 1 then (s.(attempts := 0, index := s.index + 1), NoCallback)
      else (s.(attempts := 0), OnComplete)
    else if s.attempts + 1 >= 2 then
      (Session(0, 0, true, RestartMessage), OnFail)
    else
      (s.(attempts := s.attempts + 1, showError := true, errorMessage := TryAgainMessage), NoCallback)
  }

  /** A sequence of answers, one after another, with the callbacks they invoke in order. */
  function Play(questions: seq<QuestionWithOptions>, s: Session, ids: seq<int>): (r: (Session, seq<Signal>))
    requires 0 <= s.index < |questions|
    ensures |r.1| == |ids|
    ensures 0 <= r.0.index < |questions|
    ensures 0 <= s.attempts <= 1 ==> 0 <= r.0.attempts <= 1
    decreases |ids|
  {
    if ids == [] then (s, [])
    else
      var step := Answer(questions, s, ids[0]);
      var rest := Play(questions, step.0, ids[1..]);
      (rest.0, [step.1] + rest.1)
  }

  /** A correct choice before the last question advances by one, resets attempts and calls nothing. */
  lemma CorrectAdvances(questions: seq<QuestionWithOptions>, s: Session, id: int)
    requires 0 <= s.index < |questions| - 1
    requires IsCorrectChoice(questions[s.index], id)
    ensures Answer(questions, s, id) == (Session(s.index + 1, 0, s.showError, s.errorMessage), NoCallback)
  {
  }

  /** A correct choice on the last question calls `onComplete` once and stays on that question. */
  lemma CorrectAtLastCompletes(questions: seq<QuestionWithOptions>, s: Session, id: int)
    requires |questions| > 0 && s.index == |questions| - 1
    requires IsCorrectChoice(questions[s.index], id)
    ensures Answer(questions, s, id) == (Session(s.index, 0, s.showError, s.errorMessage), OnComplete)
  {
  }

  /** The first wrong answer shows "Pensa bem..." and keeps the question. */
  lemma FirstWrongAnswer(questions: seq<QuestionWithOptions>, s: Session, id: int)
    requires 0 <= s.index < |questions| && s.attempts == 0
    requires !IsCorrectChoice(questions[s.index], id)
    ensures Answer(questions, s, id) == (Session(s.index, 1, true, TryAgainMessage), NoCallback)
  {
  }

  /** The second wrong answer in a row calls `onFail` once and restarts from question 0. */
  lemma SecondWrongAnswer(questions: seq<QuestionWithOptions>, s: Session, id: int)
    requires 0 <= s.index < |questions| && s.attempts == 1
    requires !IsCorrectChoice(questions[s.index], id)
    ensures Answer(questions, s, id) == (Session(0, 0, true, RestartMessage), OnFail)
  {
  }

  /** An id that none of the current options carries behaves exactly like a wrong option's id. */
  lemma UnknownIdIsWrong(questions: seq<QuestionWithOptions>, s: Session, unknown: int, wrong: int)
    requires 0 <= s.index < |questions|
    requires forall i :: 0 <= i < |questions[s.index].options| ==> questions[s.index].options[i].id != unknown
    requires FirstWithId(questions[s.index].options, wrong).Some?
    requires !FirstWithId(questions[s.index].options, wrong).value.isCorrect
    ensures Answer(questions, s, unknown) == Answer(questions, s, wrong)
  {
  }

  /**
    Answering every remaining question correctly walks to the last question and calls
    `onComplete` exactly once, on the final answer, and `onFail` never.
   */
  lemma {:induction false} CorrectRunCompletesOnce(questions: seq<QuestionWithOptions>, s: Session, ids: seq<int>)
    requires 0 <= s.index < |questions|
    requires |ids| == |questions| - s.index
    requires forall k :: 0 <= k < |ids| ==> IsCorrectChoice(questions[s.index + k], ids[k])
    ensures Play(questions, s, ids).0 == Session(|questions| - 1, 0, s.showError, s.errorMessage)
    ensures Play(questions, s, ids).1 == seq(|ids| - 1, _ => NoCallback) + [OnComplete]
    decreases |ids|
  {
    if s.index == |questions| - 1 {
      CorrectAtLastCompletes(questions, s, ids[0]);
      assert ids[1..] == [];
    } else {
      CorrectAdvances(questions, s, ids[0]);
      var next := Session(s.index + 1, 0, s.showError, s.errorMessage);
      forall k | 0 <= k < |ids[1..]| ensures IsCorrectChoice(questions[next.index + k], ids[1..][k]) {
        assert ids[1..][k] == ids[k + 1];
      }
      CorrectRunCompletesOnce(questions, next, ids[1..]);
      assert [NoCallback] + seq(|ids| - 2, _ => NoCallback) == seq(|ids| - 1, _ => NoCallback);
    }
  }

  /** The question texts of the built-in fallback set. */
  const DefaultQuestionTexts: seq<string> := [
    "O que eu menos gosto em ti?",
    "O que eu mais amo em ti?",
    "O que farias se encontrasses uma mulher na tua cama?",
    "Como tratarias uma mulher que está obcecada por ti?",
    "Quais são os princípios que mais importam?" ]

  /** The option texts of the built-in fallback set, four per question. */
  const DefaultOptionTexts: seq<seq<string>> := [
    [ "Tua timidez", "Super ego", "Teu silêncio", "Tua distração" ],
    [ "Teu sorriso", "Teus olhos", "Teu abraço", "Tua voz" ],
    [ "Ignorava", "Chamavas a tua namorada", "Ficava confuso", "Saia de casa" ],
    [ "Ignorava", "Aproveitava", "Conversaria", "Fugia" ],
    [ "Dinheiro e poder", "Lealdade, honestidade e respeito", "Liberdade total", "Sucesso profissional" ] ]

  /** The `isCorrect` flags of the fallback options, four per question, as written beside the texts. */
  const DefaultOptionFlags: seq<seq<bool>> := [
    [false, true, false, false],
    [false, true, false, false],
    [false, true, false, false],
    [false, false, true, false],
    [false, true, false, false] ]

  /** The correct option of fallback question `q`. */
  function DefaultCorrectId(q: int): int
    requires 1 <= q <= 5
  {
    [102, 202, 302, 403, 502][q - 1]
  }

  /** Fallback option `j` (1 to 4) of question `q`: id q0j, with its written text and flag. */
  function DefaultOption(q: int, j: int): AnswerOptionEntity
    requires 1 <= q <= 5 && 1 <= j <= 4
  {
    AnswerOptionEntity(q * 100 + j, q, DefaultOptionTexts[q - 1][j - 1], DefaultOptionFlags[q - 1][j - 1])
  }

  /** Fallback question `q` with its four options. */
  function DefaultQuestion(q: int): QuestionWithOptions
    requires 1 <= q <= 5
  {
    QuestionWithOptions(q, DefaultQuestionTexts[q - 1],
      [DefaultOption(q, 1), DefaultOption(q, 2), DefaultOption(q, 3), DefaultOption(q, 4)])
  }

  /** `defaultQuestions()`: the set shown when loading from the store fails. */
  function DefaultQuestions(): seq<QuestionWithOptions> {
    [DefaultQuestion(1), DefaultQuestion(2), DefaultQuestion(3), DefaultQuestion(4), DefaultQuestion(5)]
  }

  /**
    The fallback set: five questions with ids 1 to 5; question i + 1 has four options with ids
    (i + 1)01..(i + 1)04 belonging to it, exactly one of them correct: 102, 202, 302, 403, 502.
   */
  lemma DefaultQuestionsShape(i: int)
    requires 0 <= i < 5
    ensures |DefaultQuestions()| == 5 && DefaultQuestions()[i].id == i + 1
    ensures |DefaultQuestions()[i].options| == 4
    ensures forall j :: 0 <= j < 4 ==>
              DefaultQuestions()[i].options[j].id == (i + 1) * 100 + j + 1 && DefaultQuestions()[i].options[j].questionId == i + 1
    ensures CountCorrect(DefaultQuestions()[i].options) == 1
    ensures forall o :: o in DefaultQuestions()[i].options && o.isCorrect ==> o.id == DefaultCorrectId(i + 1)
  {
    var q := i + 1;
    assert DefaultQuestions()[i] == DefaultQuestion(q);
    CountCorrectOfFour(DefaultOption(q, 1), DefaultOption(q, 2), DefaultOption(q, 3), DefaultOption(q, 4));
  }

  /** Picking the correct option id of each fallback question selects that correct option. */
  lemma DefaultCorrectIdIsCorrectChoice(q: int)
    requires 1 <= q <= 5
    ensures IsCorrectChoice(DefaultQuestions()[q - 1], DefaultCorrectId(q))
  {
    assert DefaultQuestions()[q - 1] == DefaultQuestion(q);
    var k := DefaultCorrectId(q) - q * 100;
    assert 1 <= k <= 4;
    assert DefaultQuestion(q).options[k - 1] == DefaultOption(q, k);
  }

  /** Each fallback question's correct id, picked in order, is a correct choice. */
  lemma DefaultCorrectChoices(ids: seq<int>)
    requires ids == [102, 202, 302, 403, 502]
    ensures forall k :: 0 <= k < |ids| ==> IsCorrectChoice(DefaultQuestions()[k], ids[k])
  {
    forall k | 0 <= k < 5 ensures IsCorrectChoice(DefaultQuestions()[k], ids[k]) {
      DefaultCorrectIdIsCorrectChoice(k + 1);
    }
  }

  /** On the fallback set, answering 102, 202, 302, 403, 502 completes the quiz exactly once. */
  lemma DefaultRunCompletes(ids: seq<int>)
    requires ids == [102, 202, 302, 403, 502]
    ensures Play(DefaultQuestions(), InitialSession, ids).1 == seq(4, _ => NoCallback) + [OnComplete]
  {
    var qs := DefaultQuestions();
    assert |qs| == 5;
    DefaultCorrectChoices(ids);
    CorrectRunCompletesOnce(qs, InitialSession, ids);
  }

  /** How the background load ended: the loaded list, or any thrown failure. */
  datatype LoadOutcome = Success(list: seq<QuestionWithOptions>) | Failure

  /** The questions the view model shows after its initial load. */
  function LoadedQuestions(outcome: LoadOutcome): (qs: seq<QuestionWithOptions>)
    ensures outcome.Success? ==> qs == outcome.list
    ensures outcome.Failure? ==> qs == DefaultQuestions()
    ensures outcome.Failure? ==> |qs| == 5
  {
    if outcome.Success? then outcome.list else DefaultQuestions()
  }

  class QuizViewModel {
    var currentQuestionIndex: int
    var attempts: int
    var showError: bool
    var errorMessage: string
    var questions: seq<QuestionWithOptions>
    var isLoading: bool

    /** How many times `onComplete` and `onFail` have been invoked. */
    ghost var completeCalls: nat
    ghost var failCalls: nat

    function CurrentSession(): Session
      reads this
    {
      Session(currentQuestionIndex, attempts, showError, errorMessage)
    }

    /**
      Attempts stay in {0, 1}; the index is 0 or points at a question; nothing has been
      answered while the questions are still loading.
     */
    ghost predicate Valid()
      reads this
    {
      0 <= attempts <= 1
      && 0 <= currentQuestionIndex
      && (currentQuestionIndex == 0 || currentQuestionIndex < |questions|)
      && (isLoading ==> questions == [] && currentQuestionIndex == 0 && attempts == 0)
    }

    constructor ()
      ensures Valid()
      ensures CurrentSession() == InitialSession && questions == [] && isLoading
      ensures completeCalls == 0 && failCalls == 0
    {
      currentQuestionIndex := 0;
      attempts := 0;
      showError := false;
      errorMessage := "";
      questions := [];
      isLoading := true;
      completeCalls := 0;
      failCalls := 0;
    }

    /** The end of the `init` block: store the loaded list, or the fallback set on failure. */
    method FinishLoading(outcome: LoadOutcome)
      requires Valid() && isLoading
      modifies this
      ensures Valid()
      ensures questions == LoadedQuestions(outcome) && !isLoading
      ensures CurrentSession() == old(CurrentSession())
      ensures completeCalls == old(completeCalls) && failCalls == old(failCalls)
    {
      match outcome {
        case Success(list) =>
          questions := list;
        case Failure =>
          questions := DefaultQuestions();
      }
      isLoading := false;
    }

    /** `checkAnswer`: the current question must exist, as the screen checks before calling. */
    method CheckAnswer(selectedOptionId: int)
      requires Valid() && 0 <= currentQuestionIndex < |questions|
      modifies this
      ensures Valid()
      ensures CurrentSession() == Answer(old(questions), old(CurrentSession()), selectedOptionId).0
      ensures completeCalls == old(completeCalls)
                + (if Answer(old(questions), old(CurrentSession()), selectedOptionId).1 == OnComplete then 1 else 0)
      ensures failCalls == old(failCalls)
                + (if Answer(old(questions), old(CurrentSession()), selectedOptionId).1 == OnFail then 1 else 0)
      ensures questions == old(questions) && isLoading == old(isLoading)
    {
      var currentQuestion := questions[currentQuestionIndex];
      var selected := FirstWithId(currentQuestion.options, selectedOptionId);
      if selected.Some? && selected.value.isCorrect {
        attempts := 0;
        if currentQuestionIndex < |questions| - 1 {
          currentQuestionIndex := currentQuestionIndex + 1;
        } else {
          completeCalls := completeCalls + 1;
        }
      } else {
        attempts := attempts + 1;
        if attempts >= 2 {
          showError := true;
          errorMessage := RestartMessage;
          attempts := 0;
          currentQuestionIndex := 0;
          failCalls := failCalls + 1;
        } else {
          showError := true;
          errorMessage := TryAgainMessage;
        }
      }
    }

    /** `dismissError`: hides the error and changes nothing else. */
    method DismissError()
      requires Valid()
      modifies this
      ensures Valid()
      ensures CurrentSession() == old(CurrentSession()).(showError := false)
      ensures questions == old(questions) && isLoading == old(isLoading)
      ensures completeCalls == old(completeCalls) && failCalls == old(failCalls)
    {
      showError := false;
    }

    /** `reset`: back to the first question with a clean slate; the questions stay. */
    method Reset()
      requires Valid()
      modifies this
      ensures Valid()
      ensures CurrentSession() == InitialSession
      ensures questions == old(questions) && isLoading == old(isLoading)
      ensures completeCalls == old(completeCalls) && failCalls == old(failCalls)
    {
      currentQuestionIndex := 0;
      attempts := 0;
      showError := false;
      errorMessage := "";
    }
  }
}
