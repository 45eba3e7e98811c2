/** Validation of an imported quiz: the object shape and the length and
    count constraints of the quiz, question and option schemas, checked over
    already-parsed JSON, followed by the transforms that fill missing ids.
    Fresh ids come from `uuid`, numbered in the order the transforms ask for
    them: each question's id, then its options' ids, and the quiz's id last. */
module QuizSchema {
  import opened Types

  datatype Json =
    | JNull
    | JBool(b: bool)
    | JNumber(n: int)
    | JString(s: string)
    | JArray(items: seq<Json>)
    | JObject(fields: map<string, Json>)

  /** The outcome of `JSON.parse` on the input text. */
  datatype ParsedText = ParseError | Parsed(json: Json)

  /** `JSON.parse` threw, or the schema rejected the value. The issue list
      zod attaches is not modelled. */
  datatype ValidationError = SyntaxError | SchemaError

  datatype Validation = Success(quiz: Quiz) | Failure(error: ValidationError)

  type Fields = map<string, Json>

  /** `z.string().optional()`: absent, or a string (`null` is rejected). */
  predicate OptionalString(f: Fields, key: string) {
    key !in f || f[key].JString?
  }

  /** `z.string().min(n)`. */
  predicate StringAtLeast(f: Fields, key: string, n: nat) {
    key in f && f[key].JString? && |f[key].s| >= n
  }

  predicate ValidOption(j: Json) {
    && j.JObject?
    && OptionalString(j.fields, "id")
    && StringAtLeast(j.fields, "text", 1)
    && "isCorrect" in j.fields && j.fields["isCorrect"].JBool?
  }

  predicate ValidQuestion(j: Json) {
    && j.JObject?
    && OptionalString(j.fields, "id")
    && StringAtLeast(j.fields, "text", 3)
    && "options" in j.fields && j.fields["options"].JArray?
    && |j.fields["options"].items| >= 2
    && (forall i :: 0 <= i < |j.fields["options"].items| ==> ValidOption(j.fields["options"].items[i]))
    && OptionalString(j.fields, "explanation")
  }

  predicate ValidQuiz(j: Json) {
    && j.JObject?
    && OptionalString(j.fields, "id")
    && StringAtLeast(j.fields, "title", 3)
    && OptionalString(j.fields, "description")
    && "questions" in j.fields && j.fields["questions"].JArray?
    && |j.fields["questions"].items| >= 1
    && (forall i :: 0 <= i < |j.fields["questions"].items| ==> ValidQuestion(j.fields["questions"].items[i]))
  }

  /** The given id, with an absent one read as the empty string. */
  function GivenId(j: Json): string
    requires j.JObject? && OptionalString(j.fields, "id")
  {
    if "id" in j.fields then j.fields["id"].s else ""
  }

  function OptString(f: Fields, key: string): (r: Option<string>)
    requires OptionalString(f, key)
    ensures r.Some? <==> key in f
  {
    if key in f then Some(f[key].s) else None
  }

  function OptionText(j: Json): string requires ValidOption(j) { j.fields["text"].s }
  function OptionIsCorrect(j: Json): bool requires ValidOption(j) { j.fields["isCorrect"].b }
  function QuestionText(j: Json): string requires ValidQuestion(j) { j.fields["text"].s }
  function QuestionOptions(j: Json): seq<Json> requires ValidQuestion(j) { j.fields["options"].items }
  function QuestionExplanation(j: Json): Option<string> requires ValidQuestion(j) { OptString(j.fields, "explanation") }
  function QuizTitle(j: Json): string requires ValidQuiz(j) { j.fields["title"].s }
  function QuizDescription(j: Json): Option<string> requires ValidQuiz(j) { OptString(j.fields, "description") }
  function QuizQuestions(j: Json): seq<Json> requires ValidQuiz(j) { j.fields["questions"].items }

  /** `given || crypto.randomUUID()`: an empty id counts as missing. */
  function FillId(given: string, uuid: nat -> string, next: nat): (r: (string, nat))
    ensures given != "" ==> r == (given, next)
    ensures given == "" ==> r == (uuid(next), next + 1)
  {
    if given != "" then (given, next) else (uuid(next), next + 1)
  }

  /** An output id keeps a non-empty given id and is otherwise a fresh one
      drawn at or after `next`. */
  ghost predicate IdFrom(given: string, id: string, uuid: nat -> string, next: nat) {
    (given != "" ==> id == given) && (given == "" ==> exists k :: next <= k && id == uuid(k))
  }

  /** A fresh id drawn at or after a later counter value was drawn at or
      after an earlier one too. */
  lemma IdFromLater(given: string, id: string, uuid: nat -> string, next: nat, later: nat)
    requires next <= later && IdFrom(given, id, uuid, later)
    ensures IdFrom(given, id, uuid, next)
  {
  }

  /** A built option carries its item's text and flag and an id from
      `IdFrom`. */
  ghost predicate OptionBuiltFrom(o: QuizOption, j: Json, uuid: nat -> string, next: nat)
    requires ValidOption(j)
  {
    o.text == OptionText(j) && o.isCorrect == OptionIsCorrect(j) && IdFrom(GivenId(j), o.id, uuid, next)
  }

  /** The options, in order, with their ids filled. */
  function BuildOptions(items: seq<Json>, uuid: nat -> string, next: nat): (r: (seq<QuizOption>, nat))
    requires forall i :: 0 <= i < |items| ==> ValidOption(items[i])
    ensures next <= r.1
    ensures |r.0| == |items|
    ensures forall i :: 0 <= i < |items| ==> OptionBuiltFrom(r.0[i], items[i], uuid, next)
  {
    if items == [] then ([], next)
    else
      assert ValidOption(items[0]);
      var (id, n1) := FillId(GivenId(items[0]), uuid, next);
      var (rest, n2) := BuildOptions(items[1..], uuid, n1);
      assert forall i :: 1 <= i < |items| ==> items[i] == items[1..][i - 1];
      ([QuizOption(id, OptionText(items[0]), OptionIsCorrect(items[0]))] + rest, n2)
  }

  /** The question transform: the id first, then its options; `type` and any
      other unknown key are stripped. */
  function BuildQuestion(j: Json, uuid: nat -> string, next: nat): (r: (QuizQuestion, nat))
    requires ValidQuestion(j)
    ensures next <= r.1
    ensures r.0.text == QuestionText(j)
    ensures r.0.explanation == QuestionExplanation(j)
    ensures r.0.questionType.None?
    ensures IdFrom(GivenId(j), r.0.id, uuid, next)
    ensures |r.0.options| == |QuestionOptions(j)| >= 2
    ensures forall i :: 0 <= i < |r.0.options| ==> OptionBuiltFrom(r.0.options[i], QuestionOptions(j)[i], uuid, next)
  {
    var (id, n1) := FillId(GivenId(j), uuid, next);
    var items := QuestionOptions(j);
    var (options, n2) := BuildOptions(items, uuid, n1);
    forall i | 0 <= i < |options| ensures OptionBuiltFrom(options[i], items[i], uuid, next) {
      assert OptionBuiltFrom(options[i], items[i], uuid, n1);
    }
    (QuizQuestion(id, QuestionText(j), options, QuestionExplanation(j), None), n2)
  }

  /** A built question carries its item's text and explanation, no type,
      an id from `IdFrom`, and one option per option item, each built from
      that item. */
  ghost predicate BuiltFrom(q: QuizQuestion, j: Json, uuid: nat -> string, next: nat)
    requires ValidQuestion(j)
  {
    && q.text == QuestionText(j)
    && q.explanation == QuestionExplanation(j)
    && q.questionType.None?
    && IdFrom(GivenId(j), q.id, uuid, next)
    && |q.options| == |QuestionOptions(j)|
    && forall i :: 0 <= i < |q.options| ==> OptionBuiltFrom(q.options[i], QuestionOptions(j)[i], uuid, next)
  }

  /** What is built from a later counter value is built from an earlier one. */
  lemma BuiltFromLater(q: QuizQuestion, j: Json, uuid: nat -> string, next: nat, later: nat)
    requires ValidQuestion(j) && next <= later && BuiltFrom(q, j, uuid, later)
    ensures BuiltFrom(q, j, uuid, next)
  {
    IdFromLater(GivenId(j), q.id, uuid, next, later);
    forall i | 0 <= i < |q.options| ensures OptionBuiltFrom(q.options[i], QuestionOptions(j)[i], uuid, next) {
      assert ValidOption(QuestionOptions(j)[i]);
      IdFromLater(GivenId(QuestionOptions(j)[i]), q.options[i].id, uuid, next, later);
    }
  }

  /** Every question, in order. */
  function BuildQuestions(items: seq<Json>, uuid: nat -> string, next: nat): (r: (seq<QuizQuestion>, nat))
    requires forall i :: 0 <= i < |items| ==> ValidQuestion(items[i])
    ensures next <= r.1
    ensures |r.0| == |items|
    ensures forall i :: 0 <= i < |items| ==> BuiltFrom(r.0[i], items[i], uuid, next)
  {
    if items == [] then ([], next)
    else
      var (q, n1) := BuildQuestion(items[0], uuid, next);
      var (rest, n2) := BuildQuestions(items[1..], uuid, n1);
      var built := [q] + rest;
      assert forall i :: 1 <= i < |items| ==> BuiltFrom(built[i], items[i], uuid, next) by {
        forall i | 1 <= i < |items| ensures BuiltFrom(built[i], items[i], uuid, next) {
          assert built[i] == rest[i - 1] && items[i] == items[1..][i - 1];
          assert BuiltFrom(rest[i - 1], items[1..][i - 1], uuid, n1);
          BuiltFromLater(rest[i - 1], items[i], uuid, next, n1);
        }
      }
      (built, n2)
  }

  /** The quiz transform, after its questions; `language` and unknown keys
      are stripped. */
  function BuildQuiz(j: Json, uuid: nat -> string): (q: Quiz)
    requires ValidQuiz(j)
    ensures q.title == QuizTitle(j)
    ensures q.description == QuizDescription(j)
    ensures q.language.None?
    ensures IdFrom(GivenId(j), q.id, uuid, 0)
    ensures |q.questions| == |QuizQuestions(j)| >= 1
    ensures forall i :: 0 <= i < |q.questions| ==>
              && BuiltFrom(q.questions[i], QuizQuestions(j)[i], uuid, 0)
              && |q.questions[i].options| >= 2
  {
    var (questions, n1) := BuildQuestions(QuizQuestions(j), uuid, 0);
    var (id, _) := FillId(GivenId(j), uuid, n1);
    assert IdFrom(GivenId(j), id, uuid, n1);
    Quiz(id, QuizTitle(j), QuizDescription(j), questions, None)
  }

  /** `validateQuizJson`: success exactly when the text parses and the value
      meets every constraint of the schema, and only success carries a quiz. */
  function ValidateQuizJson(input: ParsedText, uuid: nat -> string): (r: Validation)
    ensures r.Success? <==> input.Parsed? && ValidQuiz(input.json)
    ensures input.ParseError? ==> r == Failure(SyntaxError)
    ensures input.Parsed? && !ValidQuiz(input.json) ==> r == Failure(SchemaError)
    ensures r.Success? ==> r.quiz == BuildQuiz(input.json, uuid)
  {
    if input.ParseError? then Failure(SyntaxError)
    else if ValidQuiz(input.json) then Success(BuildQuiz(input.json, uuid))
    else Failure(SchemaError)
  }

  /** With ids that are never empty, a validated quiz has a non-empty id on
      the quiz and on every question and option, and at least one question
      of at least two options. */
  lemma ValidatedQuizHasIds(input: ParsedText, uuid: nat -> string)
    requires forall k :: uuid(k) != ""
    requires ValidateQuizJson(input, uuid).Success?
    ensures var q := ValidateQuizJson(input, uuid).quiz;
            && q.id != ""
            && |q.questions| >= 1
            && forall i :: 0 <= i < |q.questions| ==>
                 && q.questions[i].id != ""
                 && |q.questions[i].options| >= 2
                 && forall o :: o in q.questions[i].options ==> o.id != ""
  {
    var q := BuildQuiz(input.json, uuid);
    forall i, o | 0 <= i < |q.questions| && o in q.questions[i].options ensures o.id != "" {
      var j := QuizQuestions(input.json)[i];
      var m :| 0 <= m < |q.questions[i].options| && q.questions[i].options[m] == o;
      assert ValidOption(QuestionOptions(j)[m]);
      assert OptionBuiltFrom(o, QuestionOptions(j)[m], uuid, 0);
    }
  }

  /** A quiz whose title is shorter than three characters, or which has no
      question, is rejected. */
  lemma QuizConstraintsRejected(j: Json, uuid: nat -> string)
    requires j.JObject?
    ensures !StringAtLeast(j.fields, "title", 3) ==> ValidateQuizJson(Parsed(j), uuid) == Failure(SchemaError)
    ensures "questions" in j.fields && j.fields["questions"] == JArray([]) ==>
              ValidateQuizJson(Parsed(j), uuid) == Failure(SchemaError)
  {
  }

  /** An option object whose text field is the empty string. */
  predicate EmptyText(o: Json) {
    o.JObject? && "text" in o.fields && o.fields["text"] == JString("")
  }

  /** One bad question, with a text shorter than three characters, fewer
      than two options or an option with an empty text, rejects the quiz. */
  lemma QuestionConstraintsRejected(j: Json, k: nat, uuid: nat -> string)
    requires j.JObject? && "questions" in j.fields && j.fields["questions"].JArray?
    requires k < |j.fields["questions"].items|
    requires var q := j.fields["questions"].items[k];
             || (q.JObject? && !StringAtLeast(q.fields, "text", 3))
             || (q.JObject? && "options" in q.fields && q.fields["options"].JArray? && |q.fields["options"].items| < 2)
             || (q.JObject? && "options" in q.fields && q.fields["options"].JArray?
                 && exists m :: 0 <= m < |q.fields["options"].items| && EmptyText(q.fields["options"].items[m]))
    ensures ValidateQuizJson(Parsed(j), uuid) == Failure(SchemaError)
  {
    var q := j.fields["questions"].items[k];
    assert !ValidQuestion(q);
  }

  /** Nothing counts the correct options: a question none of whose options
      is marked correct is accepted. */
  lemma NoCorrectOptionAccepted(uuid: nat -> string)
    ensures var option := JObject(map["text" := JString("a"), "isCorrect" := JBool(false)]);
            var question := JObject(map["text" := JString("abc"), "options" := JArray([option, option])]);
            var quiz := JObject(map["title" := JString("abc"), "questions" := JArray([question])]);
            ValidateQuizJson(Parsed(quiz), uuid).Success?
  {
    var option := JObject(map["text" := JString("a"), "isCorrect" := JBool(false)]);
    var question := JObject(map["text" := JString("abc"), "options" := JArray([option, option])]);
    assert ValidOption(option);
    assert ValidQuestion(question);
  }
}
