/** The prompt form: its settings start from fixed defaults, each input
    replaces one field, the two type switches toggle a type in the list
    without ever emptying it, and submitting stores the generated prompt. */
module PromptGenerator {
  import opened Types
  import Prompt

  /** Five questions of four options, multiple choice, Brazilian
      Portuguese, explanations on, and no difficulty field. */
  const InitialSettings: QuizSettings :=
    QuizSettings(IntCount(5), IntCount(4), "", [Multiple], "pt-BR", true, None)

  /** `types` without `t`, in order. */
  function Without(types: seq<QuestionType>, t: QuestionType): (r: seq<QuestionType>)
    ensures |r| <= |types|
    ensures forall u :: u in r <==> u in types && u != t
  {
    if types == [] then [] else (if types[0] == t then [] else [types[0]]) + Without(types[1..], t)
  }

  /** Dropping a type that is not there changes nothing. */
  lemma {:induction false} WithoutAbsent(types: seq<QuestionType>, t: QuestionType)
    requires t !in types
    ensures Without(types, t) == types
  {
    if types != [] {
      assert types[0] != t;
      WithoutAbsent(types[1..], t);
    }
  }

  /** The type switch: a selected type is removed and an unselected one is
      appended at the end; if nothing would be left, the list becomes
      `[t]`. */
  function ToggleQuestionType(types: seq<QuestionType>, t: QuestionType): (r: seq<QuestionType>)
    ensures r != []
    ensures t !in types ==> r == types + [t]
    ensures t in types && Without(types, t) != [] ==> r == Without(types, t)
    ensures t in types && Without(types, t) == [] ==> r == [t]
    ensures forall u :: u != t ==> (u in r <==> u in types)
    ensures t in r <==> t !in types || forall u :: u in types ==> u == t
  {
    if t in types then
      var kept := Without(types, t);
      if kept != [] then assert kept[0] in kept; kept else [t]
    else
      types + [t]
  }

  /** Switching an unselected type on and then off again restores the
      list, unless the list was empty. */
  lemma ToggleTwice(types: seq<QuestionType>, t: QuestionType)
    requires t !in types && types != []
    ensures ToggleQuestionType(ToggleQuestionType(types, t), t) == types
  {
    WithoutAppend(types, [t], t);
    WithoutAbsent(types, t);
    assert Without([t], t) == [];
  }

  lemma {:induction false} WithoutAppend(a: seq<QuestionType>, b: seq<QuestionType>, t: QuestionType)
    ensures Without(a + b, t) == Without(a, t) + Without(b, t)
  {
    if a == [] {
      assert a + b == b;
    } else {
      assert (a + b)[1..] == a[1..] + b;
      WithoutAppend(a[1..], b, t);
    }
  }

  predicate NoRepeats(types: seq<QuestionType>) {
    forall i, j :: 0 <= i < j < |types| ==> types[i] != types[j]
  }

  /** A list without repeats keeps none after a toggle, so the switches
      can only ever produce `[multiple]`, `[truefalse]` or both. */
  lemma {:induction false} ToggleKeepsNoRepeats(types: seq<QuestionType>, t: QuestionType)
    requires NoRepeats(types)
    ensures NoRepeats(ToggleQuestionType(types, t))
  {
    if t in types {
      WithoutKeepsNoRepeats(types, t);
    }
  }

  lemma {:induction false} WithoutKeepsNoRepeats(types: seq<QuestionType>, t: QuestionType)
    requires NoRepeats(types)
    ensures NoRepeats(Without(types, t))
  {
    if types != [] {
      var rest := Without(types[1..], t);
      WithoutKeepsNoRepeats(types[1..], t);
      assert types[0] !in types[1..];
      if types[0] != t {
        ConsNoRepeats(types[0], rest);
      }
    }
  }

  lemma ConsNoRepeats(x: QuestionType, rest: seq<QuestionType>)
    requires x !in rest && NoRepeats(rest)
    ensures NoRepeats([x] + rest)
  {
    var r := [x] + rest;
    forall i, j | 0 <= i < j < |r| ensures r[i] != r[j] {
      assert r[j] == rest[j - 1];
      if i > 0 {
        assert r[i] == rest[i - 1];
      }
    }
  }

  /** The inputs `handleInputChange` is wired to, each with its one field.
      A count is the result of `parseInt` on the field's text. */
  datatype FieldChange =
    | Topic(topic: string)
    | QuestionCount(questionCount: Count)
    | OptionCount(optionCount: Count)
    | Language(language: string)
    | IncludeExplanations(includeExplanations: bool)

  /** `{ ...prev, [key]: value }`: the named field takes the value and every
      other field is kept. */
  function ApplyFieldChange(s: QuizSettings, c: FieldChange): (r: QuizSettings)
    ensures c.Topic? ==> r == s.(topic := c.topic)
    ensures c.QuestionCount? ==> r == s.(questionCount := c.questionCount)
    ensures c.OptionCount? ==> r == s.(optionCount := c.optionCount)
    ensures c.Language? ==> r == s.(language := c.language)
    ensures c.IncludeExplanations? ==> r == s.(includeExplanations := c.includeExplanations)
    ensures r.questionTypes == s.questionTypes && r.difficulty == s.difficulty
  {
    match c
    case Topic(v) => s.(topic := v)
    case QuestionCount(v) => s.(questionCount := v)
    case OptionCount(v) => s.(optionCount := v)
    case Language(v) => s.(language := v)
    case IncludeExplanations(v) => s.(includeExplanations := v)
  }

  /** The copy button's label. */
  function CopyLabel(copied: bool): (text: string)
    ensures copied ==> text == "Copiado!"
    ensures !copied ==> text == "Copiar"
  {
    if copied then "Copiado!" else "Copiar"
  }

  /** The label reset `copyToClipboard` schedules. */
  datatype CopyReset = CopyReset(delayMs: int)

  const CopyResetDelayMs := 2000

  class PromptForm {
    var settings: QuizSettings
    var generatedPrompt: string
    var copied: bool

    /** The form's types stay non-empty and without repeats. */
    predicate Valid()
      reads this
    {
      settings.questionTypes != [] && NoRepeats(settings.questionTypes)
    }

    constructor ()
      ensures settings == InitialSettings && generatedPrompt == "" && !copied
      ensures Valid()
    {
      settings := InitialSettings;
      generatedPrompt := "";
      copied := false;
    }

    /** `handleInputChange(key, value)`. */
    method InputChange(c: FieldChange)
      requires Valid()
      modifies this
      ensures settings == ApplyFieldChange(old(settings), c)
      ensures generatedPrompt == old(generatedPrompt) && copied == old(copied)
      ensures Valid()
    {
      settings := ApplyFieldChange(settings, c);
    }

    /** `handleQuestionTypeChange(type)`: only the type list changes. */
    method QuestionTypeChange(t: QuestionType)
      requires Valid()
      modifies this
      ensures settings == old(settings).(questionTypes := ToggleQuestionType(old(settings).questionTypes, t))
      ensures generatedPrompt == old(generatedPrompt) && copied == old(copied)
      ensures Valid()
    {
      ToggleKeepsNoRepeats(settings.questionTypes, t);
      settings := settings.(questionTypes := ToggleQuestionType(settings.questionTypes, t));
    }

    /** `handleSubmit`: generate the prompt from the current settings. */
    method Submit()
      requires Valid()
      modifies this
      ensures generatedPrompt == Prompt.GenerateAIPrompt(settings)
      ensures settings == old(settings) && copied == old(copied)
      ensures generatedPrompt != ""
      ensures Valid()
    {
      Prompt.PromptOpensAndCloses(settings);
      generatedPrompt := Prompt.GenerateAIPrompt(settings);
    }

    /** `copyToClipboard`: the label switches to copied and a reset is due
      after two seconds. The clipboard write itself is not modelled. */
    method CopyToClipboard() returns (reset: CopyReset)
      requires Valid()
      modifies this
      ensures copied && reset == CopyReset(CopyResetDelayMs)
      ensures settings == old(settings) && generatedPrompt == old(generatedPrompt)
      ensures Valid()
    {
      copied := true;
      reset := CopyReset(CopyResetDelayMs);
    }

    /** The reset timer firing. */
    method ResetCopied()
      requires Valid()
      modifies this
      ensures !copied
      ensures settings == old(settings) && generatedPrompt == old(generatedPrompt)
      ensures Valid()
    {
      copied := false;
    }
  }
}
