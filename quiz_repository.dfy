/**
  `QuizRepository`: seeds the question bank when it has no questions, and reads every
  question back with its options. Seeding is a method on the store, specified by the pure
  function `Seeded`; loading is a read-only function of the table contents.
 */
module QuizRepository {
  import opened Tables
  import opened QuizEntities
  import opened QuizDao

  /** The texts of the five seed questions, in insertion order. */
  const SeedQuestionTexts: seq<string> := [
    "O que sentes quando humilhas alguém?",
    "Como deixar claro que és inteligete sem inferiorizar ninguém?",
    "O que farias se encontrasses uma mulher na tua cama?",
    "Como tratarias uma mulher que está obcecada por ti?",
    "Quais são os princípios que mais importam?" ]

  /** Seed question `q` (1 to 5). */
  function SeedQuestion(q: int): QuestionEntity
    requires 1 <= q <= 5
  {
    QuestionEntity(q, SeedQuestionTexts[q - 1])
  }

  /** The five questions written by `ensureSeeded`, in insertion order. */
  function SeedQuestions(): seq<QuestionEntity> {
    [SeedQuestion(1), SeedQuestion(2), SeedQuestion(3), SeedQuestion(4), SeedQuestion(5)]
  }

  /** The option texts of the five seed questions, four per question, in insertion order. */
  const SeedOptionTexts: seq<seq<string>> := [
    [ "Vontade de torna-los inteligentes",
      "Dopamina",
      "Nada",
      "Nunca parei pra pensar nisso" ],
    [ "Calando a boca",
      "Falar o que penso em um tom amigavel",
      "Faze-lo entender que está usando mal o cérebro, sem ser arrogante",
      "Fingir que não sei e ficaria quieto" ],
    [ "Comia ela, ninguém lhe chamou.",
      "Lhe manda sair imediatamente.",
      "Siria do quarto e espersva ela na sala pra conversar.",
      "Acharia ridículo, e riria da cara dela." ],
    [ "Ignorava, não tenho paciência para isso",
      "Aproveitava, eu gosto de adrenalina",
      "Conversaria",
      "Fugia, de louco basta eu na minha vida" ],
    [ "Dinheiro e poder",
      "Irmandade, honestidade e respeito",
      "Religiosos",
      "Ambição" ] ]

  /** The `isCorrect` flags of the seed options, four per question, as written beside the texts. */
  const SeedOptionFlags: seq<seq<bool>> := [
    [false, true, false, false],
    [false, true, false, false],
    [false, false, true, false],
    [false, false, true, false],
    [false, true, false, false] ]

  /** The id of the option marked correct in seed question `q`. */
  function SeedCorrectId(q: int): int
    requires 1 <= q <= 5
  {
    [102, 202, 303, 403, 502][q - 1]
  }

  /** Seed option `j` (1 to 4) of question `q`: id q0j, with its written text and flag. */
  function SeedOption(q: int, j: int): AnswerOptionEntity
    requires 1 <= q <= 5 && 1 <= j <= 4
  {
    AnswerOptionEntity(q * 100 + j, q, SeedOptionTexts[q - 1][j - 1], SeedOptionFlags[q - 1][j - 1])
  }

  /** The four options of seed question `q`, in the order of one `insertOptions` call. */
  function SeedOptionGroup(q: int): seq<AnswerOptionEntity>
    requires 1 <= q <= 5
  {
    [SeedOption(q, 1), SeedOption(q, 2), SeedOption(q, 3), SeedOption(q, 4)]
  }

  /** All twenty seed options, in insertion order. */
  function SeedOptions(): seq<AnswerOptionEntity> {
    SeedOptionGroup(1) + SeedOptionGroup(2) + SeedOptionGroup(3) + SeedOptionGroup(4) + SeedOptionGroup(5)
  }

  /** The store after `ensureSeeded`: seed rows are inserted only when no question exists. */
  function Seeded(t: QuizTables): (r: QuizTables)
    requires t.Valid()
    ensures r.Valid()
  {
    if CountQuestions(t) == 0 then
      QuizTables(t.questions + ByKey(SeedQuestions(), QuestionKey), t.options + ByKey(SeedOptions(), OptionKey))
    else t
  }

  /** `ensureSeeded`: counts the questions and, if there are none, inserts the seed rows. */
  method EnsureSeeded(dao: QuizDb)
    requires dao.Valid()
    modifies dao
    ensures dao.Valid()
    ensures dao.Tables() == Seeded(old(dao.Tables()))
    ensures old(dao.questions) != map[] ==> dao.questions == old(dao.questions) && dao.options == old(dao.options)
  {
    var count := CountQuestions(dao.Tables());
    if count == 0 {
      dao.InsertQuestions(SeedQuestions());
      dao.InsertOptions(SeedOptionGroup(1));
      dao.InsertOptions(SeedOptionGroup(2));
      dao.InsertOptions(SeedOptionGroup(3));
      dao.InsertOptions(SeedOptionGroup(4));
      dao.InsertOptions(SeedOptionGroup(5));
      FiveInsertsAsOne(old(dao.options), SeedOptionGroup(1), SeedOptionGroup(2), SeedOptionGroup(3),
                       SeedOptionGroup(4), SeedOptionGroup(5));
    }
  }

  /** Five option inserts in a row leave what one insert of their concatenation would. */
  lemma FiveInsertsAsOne(before: map<int, AnswerOptionEntity>, g1: seq<AnswerOptionEntity>, g2: seq<AnswerOptionEntity>,
                         g3: seq<AnswerOptionEntity>, g4: seq<AnswerOptionEntity>, g5: seq<AnswerOptionEntity>)
    ensures before + ByKey(g1, OptionKey) + ByKey(g2, OptionKey) + ByKey(g3, OptionKey) + ByKey(g4, OptionKey)
              + ByKey(g5, OptionKey)
            == before + ByKey(g1 + g2 + g3 + g4 + g5, OptionKey)
  {
    ByKeyAppend(g1, g2, OptionKey);
    ByKeyAppend(g1 + g2, g3, OptionKey);
    ByKeyAppend(g1 + g2 + g3, g4, OptionKey);
    ByKeyAppend(g1 + g2 + g3 + g4, g5, OptionKey);
    var b1, b2, b3, b4, b5 := ByKey(g1, OptionKey), ByKey(g2, OptionKey), ByKey(g3, OptionKey), ByKey(g4, OptionKey), ByKey(g5, OptionKey);
    UnionAssociates(before, b1, b2);
    UnionAssociates(before, b1 + b2, b3);
    UnionAssociates(before, b1 + b2 + b3, b4);
    UnionAssociates(before, b1 + b2 + b3 + b4, b5);
  }

  /** The rows one seed `insertOptions` call leaves in the table. */
  lemma SeedGroupTable(q: int)
    requires 1 <= q <= 5
    ensures ByKey(SeedOptionGroup(q), OptionKey) ==
      map[q * 100 + 1 := SeedOptionGroup(q)[0], q * 100 + 2 := SeedOptionGroup(q)[1],
          q * 100 + 3 := SeedOptionGroup(q)[2], q * 100 + 4 := SeedOptionGroup(q)[3]]
  {
    ByKeyOfFour(SeedOption(q, 1), SeedOption(q, 2), SeedOption(q, 3), SeedOption(q, 4), OptionKey);
  }

  /** The rows the seed `insertQuestions` call writes: questions 1 to 5. */
  lemma SeedQuestionTable()
    ensures ByKey(SeedQuestions(), QuestionKey) ==
      map[1 := SeedQuestion(1), 2 := SeedQuestion(2), 3 := SeedQuestion(3), 4 := SeedQuestion(4), 5 := SeedQuestion(5)]
  {
    var qs := SeedQuestions();
    ByKeyOfFour(qs[0], qs[1], qs[2], qs[3], QuestionKey);
    ByKeySnoc(qs[..4], qs[4], QuestionKey);
    assert qs == qs[..4] + [qs[4]] && qs[..4] == [qs[0], qs[1], qs[2], qs[3]];
  }

  /** The seed question table holds exactly the ids 1 to 5. */
  lemma SeedQuestionKeys()
    ensures forall q :: q in ByKey(SeedQuestions(), QuestionKey) <==> 1 <= q <= 5
  {
    SeedQuestionTable();
  }

  /** Seed option ids: q01..q04 for questions q = 1..5. */
  predicate IsSeedOptionId(k: int) {
    1 <= k / 100 <= 5 && 1 <= k % 100 <= 4
  }

  /** The twenty option rows as five one-group tables laid over each other. */
  lemma SeedOptionTable()
    ensures ByKey(SeedOptions(), OptionKey)
              == ByKey(SeedOptionGroup(1), OptionKey) + ByKey(SeedOptionGroup(2), OptionKey)
                 + ByKey(SeedOptionGroup(3), OptionKey) + ByKey(SeedOptionGroup(4), OptionKey)
                 + ByKey(SeedOptionGroup(5), OptionKey)
  {
    var g1, g2, g3, g4, g5 := SeedOptionGroup(1), SeedOptionGroup(2), SeedOptionGroup(3), SeedOptionGroup(4), SeedOptionGroup(5);
    ByKeyAppend(g1, g2, OptionKey);
    ByKeyAppend(g1 + g2, g3, OptionKey);
    ByKeyAppend(g1 + g2 + g3, g4, OptionKey);
    ByKeyAppend(g1 + g2 + g3 + g4, g5, OptionKey);
  }

  /** The rows of seed question `q` sit under ids q01..q04 and all belong to `q`. */
  lemma SeedGroupKeys(q: int)
    requires 1 <= q <= 5
    ensures forall k :: k in ByKey(SeedOptionGroup(q), OptionKey) <==> q * 100 + 1 <= k <= q * 100 + 4
    ensures forall k :: k in ByKey(SeedOptionGroup(q), OptionKey) ==> ByKey(SeedOptionGroup(q), OptionKey)[k].questionId == q
  {
    SeedGroupTable(q);
  }

  /** Ids q01..q04 are the ids whose hundreds are q and whose remainder is 1 to 4. */
  lemma SeedIdDigits(q: int)
    ensures forall k :: q * 100 + 1 <= k <= q * 100 + 4 <==> k / 100 == q && 1 <= k % 100 <= 4
  {
    forall k | k / 100 == q && 1 <= k % 100 <= 4 ensures q * 100 + 1 <= k <= q * 100 + 4 {
      assert k == k / 100 * 100 + k % 100;
    }
  }

  /** The seed option table holds exactly the ids q01..q04 for q = 1..5. */
  lemma SeedOptionKeys()
    ensures forall k :: k in ByKey(SeedOptions(), OptionKey) <==> IsSeedOptionId(k)
  {
    SeedOptionTable();
    SeedGroupKeys(1); SeedGroupKeys(2); SeedGroupKeys(3); SeedGroupKeys(4); SeedGroupKeys(5);
    SeedIdDigits(1); SeedIdDigits(2); SeedIdDigits(3); SeedIdDigits(4); SeedIdDigits(5);
  }

  /** Every seed option row under id q0j belongs to question q. */
  lemma SeedOptionOwners()
    ensures forall k :: k in ByKey(SeedOptions(), OptionKey) ==> ByKey(SeedOptions(), OptionKey)[k].questionId == k / 100
  {
    var b1, b2, b3, b4, b5 := ByKey(SeedOptionGroup(1), OptionKey), ByKey(SeedOptionGroup(2), OptionKey),
      ByKey(SeedOptionGroup(3), OptionKey), ByKey(SeedOptionGroup(4), OptionKey), ByKey(SeedOptionGroup(5), OptionKey);
    SeedOptionTable();
    forall k | k in b1 + b2 + b3 + b4 + b5 ensures (b1 + b2 + b3 + b4 + b5)[k].questionId == k / 100 {
      if k in b5 {
        SeedGroupKeys(5); SeedIdDigits(5);
      } else if k in b4 {
        SeedGroupKeys(4); SeedIdDigits(4);
      } else if k in b3 {
        SeedGroupKeys(3); SeedIdDigits(3);
      } else if k in b2 {
        SeedGroupKeys(2); SeedIdDigits(2);
      } else {
        SeedGroupKeys(1); SeedIdDigits(1);
      }
    }
  }

  /** Within one seed group, option q0j sits under its own id. */
  lemma SeedGroupRow(q: int, j: int)
    requires 1 <= q <= 5 && 1 <= j <= 4
    ensures q * 100 + j in ByKey(SeedOptionGroup(q), OptionKey)
    ensures ByKey(SeedOptionGroup(q), OptionKey)[q * 100 + j] == SeedOption(q, j)
  {
    SeedGroupTable(q);
    assert SeedOptionGroup(q)[j - 1] == SeedOption(q, j);
  }

  /** Seed option q0j is stored as written: no later `insertOptions` call reuses its id. */
  lemma SeedOptionRow(q: int, j: int)
    requires 1 <= q <= 5 && 1 <= j <= 4
    ensures q * 100 + j in ByKey(SeedOptions(), OptionKey)
    ensures ByKey(SeedOptions(), OptionKey)[q * 100 + j] == SeedOption(q, j)
  {
    var k := q * 100 + j;
    var b1, b2, b3, b4, b5 := ByKey(SeedOptionGroup(1), OptionKey), ByKey(SeedOptionGroup(2), OptionKey),
      ByKey(SeedOptionGroup(3), OptionKey), ByKey(SeedOptionGroup(4), OptionKey), ByKey(SeedOptionGroup(5), OptionKey);
    SeedOptionTable();
    SeedGroupRow(q, j);
    if q < 5 { SeedGroupKeys(5); assert k !in b5; }
    if q < 4 { SeedGroupKeys(4); assert k !in b4; }
    if q < 3 { SeedGroupKeys(3); assert k !in b3; }
    if q < 2 { SeedGroupKeys(2); assert k !in b2; }
  }

  /** On a store without questions, seeding lays the seed rows over what is there. */
  lemma SeededFromEmpty(t: QuizTables)
    requires t.Valid() && t.questions == map[]
    ensures Seeded(t).questions == ByKey(SeedQuestions(), QuestionKey)
    ensures Seeded(t).options == t.options + ByKey(SeedOptions(), OptionKey)
  {
    assert map[] + ByKey(SeedQuestions(), QuestionKey) == ByKey(SeedQuestions(), QuestionKey);
  }

  /** On a store without questions, `ensureSeeded` writes exactly the questions 1 to 5. */
  lemma SeedWritesQuestions(t: QuizTables)
    requires t.Valid() && t.questions == map[]
    ensures forall q :: q in Seeded(t).questions <==> 1 <= q <= 5
  {
    SeededFromEmpty(t);
    SeedQuestionKeys();
  }

  /** On a store without questions, `ensureSeeded` adds the option ids q01..q04 of each question q. */
  lemma SeedWritesOptions(t: QuizTables)
    requires t.Valid() && t.questions == map[]
    ensures forall k :: k in Seeded(t).options <==> k in t.options || IsSeedOptionId(k)
  {
    SeededFromEmpty(t);
    SeedOptionKeys();
  }

  /** After seeding an empty store, option q0j belongs to question q. */
  lemma SeedOptionsBelong(t: QuizTables)
    requires t.Valid() && t.questions == map[]
    ensures forall k :: IsSeedOptionId(k) ==> k in Seeded(t).options && Seeded(t).options[k].questionId == k / 100
  {
    SeededFromEmpty(t);
    SeedOptionKeys();
    SeedOptionOwners();
  }

  /** Option rows under ids that are not seed ids survive seeding untouched. */
  lemma SeedKeepsOtherOptions(t: QuizTables)
    requires t.Valid() && t.questions == map[]
    ensures forall k :: k in t.options && !IsSeedOptionId(k) ==> Seeded(t).options[k] == t.options[k]
  {
    SeededFromEmpty(t);
    SeedOptionKeys();
  }

  /** After seeding a store without questions, option q0j is stored exactly as the seed writes it. */
  lemma SeededOptionRow(t: QuizTables, q: int, j: int)
    requires t.Valid() && t.questions == map[]
    requires 1 <= q <= 5 && 1 <= j <= 4
    ensures q * 100 + j in Seeded(t).options
    ensures Seeded(t).options[q * 100 + j] == SeedOption(q, j)
    ensures Seeded(t).options[q * 100 + j].isCorrect <==> q * 100 + j == SeedCorrectId(q)
  {
    SeededFromEmpty(t);
    SeedOptionRow(q, j);
    SeedFlagMarksCorrectId(q, j);
  }

  /** The written flags mark exactly one option per seed question: the one `SeedCorrectId` names. */
  lemma SeedFlagMarksCorrectId(q: int, j: int)
    requires 1 <= q <= 5 && 1 <= j <= 4
    ensures SeedOption(q, j).isCorrect <==> q * 100 + j == SeedCorrectId(q)
  {
    if q == 1 {} else if q == 2 {} else if q == 3 {} else if q == 4 {} else {}
  }

  /** A store that already has questions is not touched. */
  lemma SeedLeavesNonEmptyStore(t: QuizTables)
    requires t.Valid() && t.questions != map[]
    ensures Seeded(t) == t
  {
  }

  /** Seeding twice leaves the store exactly as seeding once. */
  lemma SeededIdempotent(t: QuizTables)
    requires t.Valid()
    ensures Seeded(Seeded(t)) == Seeded(t)
  {
    SeedQuestionTable();
  }

  /** Every seed question has exactly one correct option, and it is the one `SeedCorrectId` names. */
  lemma SeedOneCorrectPerQuestion(q: int)
    requires 1 <= q <= 5
    ensures CountCorrect(SeedOptionGroup(q)) == 1
    ensures forall o :: o in SeedOptionGroup(q) && o.isCorrect ==> o.id == SeedCorrectId(q)
  {
    CountCorrectOfFour(SeedOption(q, 1), SeedOption(q, 2), SeedOption(q, 3), SeedOption(q, 4));
  }

  /** Every stored question paired with the options stored for it. */
  lemma LoadCoversQuestions(t: QuizTables, qs: seq<QuestionEntity>)
    requires t.Valid() && qs == GetQuestionsOnce(t)
    ensures forall i :: 0 <= i < |qs| ==> qs[i].id in t.questions && t.questions[qs[i].id] == qs[i]
    ensures forall id :: id in t.questions ==> exists i :: 0 <= i < |qs| && qs[i].id == id
  {
    forall i | 0 <= i < |qs| ensures qs[i].id in t.questions && t.questions[qs[i].id] == qs[i] {
      assert qs[i] in t.questions.Values;
    }
    forall id | id in t.questions ensures exists i :: 0 <= i < |qs| && qs[i].id == id {
      assert t.questions[id] in t.questions.Values;
    }
  }

  /** Each listed question paired with the options stored for it. */
  function WithOptions(t: QuizTables, qs: seq<QuestionEntity>): (r: seq<QuestionWithOptions>)
    requires t.Valid()
    ensures |r| == |qs|
    ensures forall i :: 0 <= i < |qs| ==> r[i].id == qs[i].id && r[i].text == qs[i].text
    ensures forall i :: 0 <= i < |qs| ==> r[i].options == GetOptionsOnce(t, qs[i].id)
  {
    seq(|qs|, i requires 0 <= i < |qs| => QuestionWithOptions(qs[i].id, qs[i].text, GetOptionsOnce(t, qs[i].id)))
  }

  /**
    `loadQuestionsWithOptions`: every stored question, in ascending id order, each with the
    options stored for it, in ascending id order. A function of the tables: it changes nothing.
   */
  function LoadQuestionsWithOptions(t: QuizTables): (r: seq<QuestionWithOptions>)
    requires t.Valid()
    ensures |r| == |t.questions|
    ensures forall i :: 0 <= i < |r| ==> r[i].id in t.questions && r[i].text == t.questions[r[i].id].text
    ensures forall id :: id in t.questions ==> exists i :: 0 <= i < |r| && r[i].id == id
    ensures forall i, j :: 0 <= i < j < |r| ==> r[i].id < r[j].id
    ensures forall i :: 0 <= i < |r| ==> r[i].options == GetOptionsOnce(t, r[i].id)
  {
    var qs := GetQuestionsOnce(t);
    LoadCoversQuestions(t, qs);
    WithOptions(t, qs)
  }

  /** After `ensureSeeded` the load returns at least one question, so a quiz can start at index 0. */
  lemma LoadAfterSeedIsNonEmpty(t: QuizTables)
    requires t.Valid()
    ensures |LoadQuestionsWithOptions(Seeded(t))| > 0
  {
    SeedQuestionTable();
  }
}
