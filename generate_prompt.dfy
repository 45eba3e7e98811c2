/** The prompt generator: a fixed Portuguese template whose fragments are
    chosen by the form's settings. The prompt is modelled as the sequence of
    its pieces, each a fixed phrase of the template or an interpolated
    value, and the text is their concatenation. Interpolated values render
    as a template literal renders them: a count as its digits, `null` or
    `NaN`, and a missing difficulty or a missing first question type as
    `undefined`. */
module Prompt {
  import opened Types
  import opened JsText

  /** The template's fixed text, cut at every interpolation and option. */
  datatype Phrase =
    | RequestOpen | TopicClose | Space
    | MixedWordingOpen | MixedWordingClose
    | MultipleWordingOpen | MultipleWordingClose
    | TrueFalseWording
    | LanguageOpen | PortugueseBrazil | SentenceEnd
    | VariedDifficulty | DifficultyOpen | DifficultyClose
    | AskExplanations | NoExplanations
    | MixedInstructions
    | ExampleOpen | MixedHint | OptionsOpen | ThirdOption | FourthOption | OptionsClose
    | ExplanationExample
    | ChecklistOpen | MixedChecklistItem | DifficultyItem | Quote

  function PhraseText(ph: Phrase): string {
    match ph
    case RequestOpen => "Crie um quiz sobre \""
    case TopicClose => "\" com "
    case Space => " "
    case MixedWordingOpen => "uma mistura de questões de múltipla escolha com "
    case MixedWordingClose => " opções e questões de verdadeiro/falso"
    case MultipleWordingOpen => "questões de múltipla escolha com "
    case MultipleWordingClose => " opções cada"
    case TrueFalseWording => "questões de verdadeiro/falso"
    case LanguageOpen => " no idioma "
    case PortugueseBrazil => "português do Brasil"
    case SentenceEnd => ". "
    case VariedDifficulty => "Crie questões com diferentes níveis de dificuldade, desde muito fáceis até muito difíceis."
    case DifficultyOpen => "O nível de dificuldade deve ser \""
    case DifficultyClose => "\"."
    case AskExplanations => "Por favor, inclua uma explicação para cada resposta."
    case NoExplanations => "Não é necessário incluir explicações para as respostas."
    case MixedInstructions =>
      "\n\nCrie uma mistura de ambos os tipos (múltipla escolha e verdadeiro/falso).\n"
      + "Use o campo \"type\" em cada questão para indicar o tipo:\n"
      + "- Para questões de múltipla escolha, use: \"type\": \"multiple\"\n"
      + "- Para questões de verdadeiro/falso, use: \"type\": \"truefalse\" (estas devem ter exatamente 2 opções)"
    case ExampleOpen =>
      "\n\nPor favor, formate sua resposta como um objeto JSON com a seguinte estrutura:\n"
      + "{\n"
      + "  \"title\": \"Título do Quiz\",\n"
      + "  \"description\": \"Breve descrição do quiz\",\n"
      + "  \"questions\": [\n"
      + "    {\n"
      + "      \"text\": \"Texto da pergunta aqui?\",\n"
      + "      \"type\": \""
    case MixedHint => "multiple ou truefalse"
    case OptionsOpen =>
      "\",\n"
      + "      \"options\": [\n"
      + "        { \"text\": \"Opção 1\", \"isCorrect\": false },\n"
      + "        { \"text\": \"Opção 2\", \"isCorrect\": true }"
    case ThirdOption => ",\n        { \"text\": \"Opção 3\", \"isCorrect\": false }"
    case FourthOption => ",\n        { \"text\": \"Opção 4\", \"isCorrect\": false }"
    case OptionsClose => "\n      ]"
    case ExplanationExample => ",\n      \"explanation\": \"Explicação para a resposta correta aqui.\""
    case ChecklistOpen =>
      "\n    }\n"
      + "  ]\n"
      + "}\n"
      + "\n"
      + "Certifique-se de que:\n"
      + "1. Cada questão tenha exatamente uma resposta correta\n"
      + "2. O conteúdo seja preciso e educativo\n"
      + "3. O JSON esteja formatado corretamente e seja válido\n"
      + "4. Questões de verdadeiro/falso tenham exatamente 2 opções"
    case MixedChecklistItem => "\n5. O campo \"type\" esteja presente em todas as questões"
    case DifficultyItem => "\n6. As questões atendam ao nível de dificuldade solicitado: \""
    case Quote => "\""
  }

  /** A piece of the prompt: fixed text, or an interpolated value. */
  datatype Piece = Fixed(phrase: Phrase) | Value(text: string)

  function PieceText(p: Piece): string {
    match p
    case Fixed(ph) => PhraseText(ph)
    case Value(t) => t
  }

  /** The text of each piece, in order. */
  function Texts(ps: seq<Piece>): (ts: seq<string>)
    ensures |ts| == |ps|
    ensures forall i :: 0 <= i < |ps| ==> ts[i] == PieceText(ps[i])
  {
    if ps == [] then [] else [PieceText(ps[0])] + Texts(ps[1..])
  }

  /** The texts, joined with nothing between them. */
  function Concat(ts: seq<string>): string {
    if ts == [] then "" else ts[0] + Concat(ts[1..])
  }

  lemma {:induction false} ConcatAppend(a: seq<string>, b: seq<string>)
    ensures Concat(a + b) == Concat(a) + Concat(b)
  {
    if a == [] {
      assert a + b == b;
    } else {
      assert (a + b)[1..] == a[1..] + b;
      ConcatAppend(a[1..], b);
    }
  }

  /** Joining is the joined first `k` followed by the joined rest. */
  lemma {:induction false} ConcatSplit(ts: seq<string>, k: nat)
    requires k <= |ts|
    ensures Concat(ts) == Concat(ts[..k]) + Concat(ts[k..])
  {
    if k == 0 {
      assert ts[..0] == [] && ts[0..] == ts;
    } else {
      ConcatSplit(ts[1..], k - 1);
      assert ts[1..][..k - 1] == ts[..k][1..];
      assert ts[1..][k - 1..] == ts[k..];
    }
  }

  /** The joined text opens with the first three texts and closes with the
      last three. */
  lemma ConcatFrame(ts: seq<string>)
    requires |ts| >= 6
    ensures var head := ts[0] + ts[1] + ts[2];
            |head| <= |Concat(ts)| && Concat(ts)[..|head|] == head
    ensures var n := |ts|;
            var tail := ts[n - 3] + ts[n - 2] + ts[n - 1];
            |tail| <= |Concat(ts)| && Concat(ts)[|Concat(ts)| - |tail|..] == tail
  {
    var n := |ts|;
    ConcatSplit(ts, 3);
    ConcatSplit(ts, n - 3);
    var h := ts[..3];
    ConcatThree(h);
    var t := ts[n - 3..];
    ConcatThree(t);
    PrefixOf(Concat(h), Concat(ts[3..]));
    SuffixOf(Concat(ts[..n - 3]), Concat(t));
  }

  lemma ConcatThree(ts: seq<string>)
    requires |ts| == 3
    ensures Concat(ts) == ts[0] + ts[1] + ts[2]
  {
    assert ts[1..][1..][1..] == [];
    assert Concat(ts[1..][1..]) == ts[2] + Concat([]);
  }

  lemma PrefixOf(a: string, b: string)
    ensures (a + b)[..|a|] == a
  {
  }

  lemma SuffixOf(a: string, b: string)
    ensures (a + b)[|a + b| - |b|..] == b
  {
  }

  /** `${count}`. */
  function CountText(c: Count): (t: string)
    ensures c.NullCount? ==> t == "null"
    ensures c.NaNCount? ==> t == "NaN"
    ensures c.IntCount? ==> ParseInt(t) == Some(c.n)
  {
    match c
    case NullCount => "null"
    case NaNCount => "NaN"
    case IntCount(n) => IntToStringRoundTrip(n); IntToString(n)
  }

  /** `count > 3`: `null` compares as 0 and `NaN` compares false. */
  function MoreThanThree(c: Count): (b: bool)
    ensures b <==> c.IntCount? && c.n > 3
  {
    match c
    case NullCount => 0 > 3
    case NaNCount => false
    case IntCount(n) => n > 3
  }

  /** `${difficulty}`. */
  function DifficultyValue(difficulty: Option<string>): (t: string)
    ensures difficulty.Some? ==> t == difficulty.value
    ensures difficulty.None? ==> t == "undefined"
  {
    if difficulty.Some? then difficulty.value else "undefined"
  }

  /** `questionTypes[0]` in the example, `undefined` for an empty list. */
  function FirstTypeName(types: seq<QuestionType>): (t: string)
    ensures types != [] ==> t == TypeName(types[0])
    ensures types == [] ==> t == "undefined"
  {
    if types != [] then TypeName(types[0]) else "undefined"
  }

  predicate HasMixedTypes(types: seq<QuestionType>) {
    |types| > 1
  }

  /** An omitted fragment: a piece with no text. */
  const Omitted: Piece := Value("")

  function When(c: bool, ph: Phrase): Piece {
    if c then Fixed(ph) else Omitted
  }

  /** The pieces of `generateAIPrompt(settings)`, in order, one place per
      fragment of the template whether or not it is chosen. */
  function PromptPieces(s: QuizSettings): (ps: seq<Piece>) {
    var types := s.questionTypes;
    var mixed := HasMixedTypes(types);
    var multipleOnly := !mixed && Multiple in types;
    [ // the request sentence
      Fixed(RequestOpen), Value(s.topic), Fixed(TopicClose), Value(CountText(s.questionCount)), Fixed(Space),
      // the kind of questions
      if mixed then Fixed(MixedWordingOpen) else if multipleOnly then Fixed(MultipleWordingOpen) else Fixed(TrueFalseWording),
      if mixed || multipleOnly then Value(CountText(s.optionCount)) else Omitted,
      if mixed then Fixed(MixedWordingClose) else When(multipleOnly, MultipleWordingClose),
      // the language, the difficulty and the explanations
      Fixed(LanguageOpen), if s.language == "pt-BR" then Fixed(PortugueseBrazil) else Value(s.language), Fixed(SentenceEnd),
      if s.difficulty == Some("variado") then Fixed(VariedDifficulty) else Fixed(DifficultyOpen),
      if s.difficulty == Some("variado") then Omitted else Value(DifficultyValue(s.difficulty)),
      When(s.difficulty != Some("variado"), DifficultyClose),
      Fixed(Space), if s.includeExplanations then Fixed(AskExplanations) else Fixed(NoExplanations),
      When(mixed, MixedInstructions),
      // the example quiz
      Fixed(ExampleOpen), if mixed then Fixed(MixedHint) else Value(FirstTypeName(types)), Fixed(OptionsOpen),
      When(Multiple in types, ThirdOption),
      When(Multiple in types && MoreThanThree(s.optionCount), FourthOption),
      Fixed(OptionsClose), When(s.includeExplanations, ExplanationExample),
      // the checklist
      Fixed(ChecklistOpen), When(mixed, MixedChecklistItem),
      Fixed(DifficultyItem), Value(DifficultyValue(s.difficulty)), Fixed(Quote) ]
  }

  /** `generateAIPrompt`: the texts of the pieces, in order, so the text of
      every piece occurs in the prompt. */
  function GenerateAIPrompt(s: QuizSettings): (p: string)
    ensures forall k :: 0 <= k < |PromptPieces(s)| ==> Occurs(p, PieceText(PromptPieces(s)[k]))
  {
    var ts := Texts(PromptPieces(s));
    ConcatShowsAll(ts);
    Concat(ts)
  }

  /** The prompt opens with the quoted topic and closes with the quoted
      difficulty. */
  lemma PromptOpensAndCloses(s: QuizSettings)
    ensures var head := PhraseText(RequestOpen) + s.topic + PhraseText(TopicClose);
            |head| <= |GenerateAIPrompt(s)| && GenerateAIPrompt(s)[..|head|] == head
    ensures var p, tail := GenerateAIPrompt(s), PhraseText(DifficultyItem) + DifficultyValue(s.difficulty) + PhraseText(Quote);
            |tail| <= |p| && p[|p| - |tail|..] == tail
  {
    var ps := PromptPieces(s);
    PromptEnds(s);
    var ts := Texts(ps);
    assert ts[0] == PieceText(ps[0]) && ts[1] == PieceText(ps[1]) && ts[2] == PieceText(ps[2]);
    assert ts[26] == PieceText(ps[26]) && ts[27] == PieceText(ps[27]) && ts[28] == PieceText(ps[28]);
    ConcatFrame(ts);
  }

  /** The first three and the last three pieces. */
  lemma PromptEnds(s: QuizSettings)
    ensures |PromptPieces(s)| == 29
    ensures PromptPieces(s)[..3] == [Fixed(RequestOpen), Value(s.topic), Fixed(TopicClose)]
    ensures PromptPieces(s)[26..] == [Fixed(DifficultyItem), Value(DifficultyValue(s.difficulty)), Fixed(Quote)]
  {
  }

  /** Where each chosen fragment sits among the pieces. */
  const WordingSlot := 5
  const WordingCountSlot := 6
  const LanguageSlot := 9
  const DifficultySlot := 11
  const DifficultyValueSlot := 12
  const ExplanationsSlot := 15
  const MixedInstructionsSlot := 16
  const TypeHintSlot := 18
  const ThirdOptionSlot := 20
  const FourthOptionSlot := 21
  const ExplanationExampleSlot := 23
  const MixedChecklistSlot := 25
  const ChecklistDifficultySlot := 27

  /** The wording for the kind of questions: a mixture exactly when more
      than one type is selected, multiple choice when only multiple choice
      is, and true/false otherwise; both multiple-choice wordings carry the
      option count. */
  lemma QuestionTypeWording(s: QuizSettings)
    ensures PromptPieces(s)[WordingSlot] == Fixed(MixedWordingOpen) <==> |s.questionTypes| > 1
    ensures PromptPieces(s)[WordingSlot] == Fixed(MultipleWordingOpen) <==>
              |s.questionTypes| <= 1 && Multiple in s.questionTypes
    ensures PromptPieces(s)[WordingSlot] == Fixed(TrueFalseWording) <==>
              |s.questionTypes| <= 1 && Multiple !in s.questionTypes
    ensures Multiple in s.questionTypes ==> PromptPieces(s)[WordingCountSlot] == Value(CountText(s.optionCount))
  {
  }

  /** The explanations sentence and the example's explanation line are
      chosen by `includeExplanations`. */
  lemma ExplanationsFollowSetting(s: QuizSettings)
    ensures PromptPieces(s)[ExplanationsSlot] == Fixed(AskExplanations) <==> s.includeExplanations
    ensures PromptPieces(s)[ExplanationsSlot] == Fixed(NoExplanations) <==> !s.includeExplanations
    ensures PromptPieces(s)[ExplanationExampleSlot] == Fixed(ExplanationExample) <==> s.includeExplanations
    ensures PromptPieces(s)[ExplanationExampleSlot] == Omitted <==> !s.includeExplanations
  {
  }

  /** `'variado'` gives the varied sentence and any other difficulty the
      quoted one; the checklist quotes it in every case. */
  lemma DifficultyFollowsSetting(s: QuizSettings)
    ensures PromptPieces(s)[DifficultySlot] == Fixed(VariedDifficulty) <==> s.difficulty == Some("variado")
    ensures PromptPieces(s)[DifficultySlot] == Fixed(DifficultyOpen) <==> s.difficulty != Some("variado")
    ensures s.difficulty != Some("variado") ==>
              PromptPieces(s)[DifficultyValueSlot] == Value(DifficultyValue(s.difficulty))
    ensures PromptPieces(s)[ChecklistDifficultySlot] == Value(DifficultyValue(s.difficulty))
  {
  }

  /** `'pt-BR'` is named in Portuguese; any other tag appears as given. */
  lemma LanguageFollowsSetting(s: QuizSettings)
    ensures PromptPieces(s)[LanguageSlot] == Fixed(PortugueseBrazil) <==> s.language == "pt-BR"
    ensures s.language != "pt-BR" ==> PromptPieces(s)[LanguageSlot] == Value(s.language)
  {
  }

  /** The example's third option appears exactly when multiple choice is
      selected, and its fourth exactly when, in addition, more than three
      options are asked for. */
  lemma ExampleOptionsFollowSettings(s: QuizSettings)
    ensures PromptPieces(s)[ThirdOptionSlot] == Fixed(ThirdOption) <==> Multiple in s.questionTypes
    ensures PromptPieces(s)[ThirdOptionSlot] == Omitted <==> Multiple !in s.questionTypes
    ensures PromptPieces(s)[FourthOptionSlot] == Fixed(FourthOption) <==>
              Multiple in s.questionTypes && s.optionCount.IntCount? && s.optionCount.n > 3
    ensures PromptPieces(s)[FourthOptionSlot] == Omitted <==>
              !(Multiple in s.questionTypes && s.optionCount.IntCount? && s.optionCount.n > 3)
  {
  }

  /** For a mixture the example's type is the mixture hint, and the type
      instructions and checklist item 5 appear; otherwise neither appears
      and the example shows the first type. */
  lemma MixtureFollowsSetting(s: QuizSettings)
    ensures PromptPieces(s)[TypeHintSlot] == Fixed(MixedHint) <==> |s.questionTypes| > 1
    ensures |s.questionTypes| <= 1 ==> PromptPieces(s)[TypeHintSlot] == Value(FirstTypeName(s.questionTypes))
    ensures PromptPieces(s)[MixedInstructionsSlot] == Fixed(MixedInstructions) <==> |s.questionTypes| > 1
    ensures PromptPieces(s)[MixedInstructionsSlot] == Omitted <==> |s.questionTypes| <= 1
    ensures PromptPieces(s)[MixedChecklistSlot] == Fixed(MixedChecklistItem) <==> |s.questionTypes| > 1
    ensures PromptPieces(s)[MixedChecklistSlot] == Omitted <==> |s.questionTypes| <= 1
  {
  }

  /** Changing `includeExplanations` changes only its two slots. */
  lemma ExplanationsChangeOnlyTheirSlots(s: QuizSettings, b: bool)
    ensures |PromptPieces(s.(includeExplanations := b))| == |PromptPieces(s)|
    ensures forall k :: 0 <= k < |PromptPieces(s)| && k != ExplanationsSlot && k != ExplanationExampleSlot ==>
              PromptPieces(s.(includeExplanations := b))[k] == PromptPieces(s)[k]
  {
  }

  /** `t` occurs in `p` as a contiguous piece. */
  ghost predicate Occurs(p: string, t: string) {
    exists a, b :: p == a + t + b
  }

  /** Every text occurs in the joined text. */
  lemma {:induction false} ConcatShows(ts: seq<string>, i: nat)
    requires i < |ts|
    ensures Occurs(Concat(ts), ts[i])
  {
    if i == 0 {
      assert Concat(ts) == "" + ts[0] + Concat(ts[1..]);
    } else {
      ConcatShows(ts[1..], i - 1);
      var a, b :| Concat(ts[1..]) == a + ts[i] + b;
      assert Concat(ts) == (ts[0] + a) + ts[i] + b;
    }
  }

  lemma ConcatShowsAll(ts: seq<string>)
    ensures forall i :: 0 <= i < |ts| ==> Occurs(Concat(ts), ts[i])
  {
    forall i | 0 <= i < |ts| ensures Occurs(Concat(ts), ts[i]) {
      ConcatShows(ts, i);
    }
  }
}
