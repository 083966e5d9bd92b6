/**
 * The strict schemas that guard writes of SURVEY stage configurations and of
 * participants' survey answers, and a typed view of the values they accept.
 *
 * Every schema is a predicate on `Json`. Each object schema is closed: it
 * accepts an object whose field names are exactly the declared ones (all of
 * them are required, none may be added). The typed view (`SurveyQuestion`,
 * `SurveyAnswer`, ...) is the independent definition the schemas are checked
 * against: `Decode*` succeeds exactly on accepted payloads and `Encode*` is its
 * inverse.
 */
module SurveyValidation {
  import opened Wrappers
  import opened JsonValue

  // ---------------------------------------------------------------------
  // Discriminators
  // ---------------------------------------------------------------------

  /** The string values of `SurveyQuestionKind` and of `StageKind.SURVEY`. */
  const TEXT_KIND: string := "text"
  const CHECK_KIND: string := "check"
  const MULTIPLE_CHOICE_KIND: string := "mc"
  const SCALE_KIND: string := "scale"
  const SURVEY_STAGE_KIND: string := "survey"

  datatype QuestionKind = Text | Check | MultipleChoice | Scale

  function KindLiteral(k: QuestionKind): string {
    match k
    case Text => TEXT_KIND
    case Check => CHECK_KIND
    case MultipleChoice => MULTIPLE_CHOICE_KIND
    case Scale => SCALE_KIND
  }

  // ---------------------------------------------------------------------
  // Declared fields of each object schema
  // ---------------------------------------------------------------------

  const QUESTION_KEYS: set<string> := {"id", "kind", "questionTitle"}
  const OPTION_QUESTION_KEYS: set<string> := {"id", "kind", "questionTitle", "options"}
  const MULTIPLE_CHOICE_ITEM_KEYS: set<string> := {"id", "text", "points"}
  const SCALE_ITEM_KEYS: set<string> := {"id", "value", "description"}
  const STAGE_CONFIG_KEYS: set<string> := {"id", "kind", "game", "name", "descriptions", "questions"}
  const ANSWER_KEYS: set<string> := {"id", "kind", "answer"}
  const PARTICIPANT_ANSWER_KEYS: set<string> := {"kind", "answerMap"}

  // ---------------------------------------------------------------------
  // Question schemas
  // ---------------------------------------------------------------------

  /** `TextSurveyQuestionData` */
  predicate TextSurveyQuestionData(v: Json) {
    && IsStrictObject(v, QUESTION_KEYS)
    && IsNonEmptyString(v.fields["id"])
    && IsLiteral(v.fields["kind"], TEXT_KIND)
    && IsString(v.fields["questionTitle"])
  }

  /** `CheckSurveyQuestionData` */
  predicate CheckSurveyQuestionData(v: Json) {
    && IsStrictObject(v, QUESTION_KEYS)
    && IsNonEmptyString(v.fields["id"])
    && IsLiteral(v.fields["kind"], CHECK_KIND)
    && IsString(v.fields["questionTitle"])
  }

  /** `MultipleChoiceItemData` */
  predicate MultipleChoiceItemData(v: Json) {
    && IsStrictObject(v, MULTIPLE_CHOICE_ITEM_KEYS)
    && IsNonEmptyString(v.fields["id"])
    && IsString(v.fields["text"])
    && IsNumber(v.fields["points"])
  }

  /** `MultipleChoiceSurveyQuestionData` */
  predicate MultipleChoiceSurveyQuestionData(v: Json) {
    && IsStrictObject(v, OPTION_QUESTION_KEYS)
    && IsNonEmptyString(v.fields["id"])
    && IsLiteral(v.fields["kind"], MULTIPLE_CHOICE_KIND)
    && IsString(v.fields["questionTitle"])
    && v.fields["options"].JArr?
    && forall i :: 0 <= i < |v.fields["options"].elems| ==> MultipleChoiceItemData(v.fields["options"].elems[i])
  }

  /** `ScaleItemData` */
  predicate ScaleItemData(v: Json) {
    && IsStrictObject(v, SCALE_ITEM_KEYS)
    && IsNonEmptyString(v.fields["id"])
    && IsNumber(v.fields["value"])
    && IsString(v.fields["description"])
  }

  /** `ScaleSurveyQuestionData` */
  predicate ScaleSurveyQuestionData(v: Json) {
    && IsStrictObject(v, OPTION_QUESTION_KEYS)
    && IsNonEmptyString(v.fields["id"])
    && IsLiteral(v.fields["kind"], SCALE_KIND)
    && IsString(v.fields["questionTitle"])
    && v.fields["options"].JArr?
    && forall i :: 0 <= i < |v.fields["options"].elems| ==> ScaleItemData(v.fields["options"].elems[i])
  }

  /** The union member of `SurveyQuestionData` whose `kind` literal is `KindLiteral(k)`. */
  predicate QuestionMemberData(k: QuestionKind, v: Json) {
    match k
    case Text => TextSurveyQuestionData(v)
    case Check => CheckSurveyQuestionData(v)
    case MultipleChoice => MultipleChoiceSurveyQuestionData(v)
    case Scale => ScaleSurveyQuestionData(v)
  }

  /** `SurveyQuestionData`: the union of the four question schemas. */
  predicate SurveyQuestionData(v: Json) {
    || TextSurveyQuestionData(v)
    || CheckSurveyQuestionData(v)
    || MultipleChoiceSurveyQuestionData(v)
    || ScaleSurveyQuestionData(v)
  }

  // ---------------------------------------------------------------------
  // Stage config schema
  // ---------------------------------------------------------------------

  /**
   * `StageGameSchema` and `StageTextConfigSchema`, which the stage config
   * schema uses for its `game` and `descriptions` fields. Their definitions
   * are not part of this model, so every statement holds for any choice.
   */
  datatype StageSchemas = StageSchemas(game: Json -> bool, descriptions: Json -> bool)

  /** `SurveyStageConfigData` */
  predicate SurveyStageConfigData(v: Json, ext: StageSchemas) {
    && IsStrictObject(v, STAGE_CONFIG_KEYS)
    && IsNonEmptyString(v.fields["id"])
    && IsLiteral(v.fields["kind"], SURVEY_STAGE_KIND)
    && ext.game(v.fields["game"])
    && IsNonEmptyString(v.fields["name"])
    && ext.descriptions(v.fields["descriptions"])
    && v.fields["questions"].JArr?
    && forall i :: 0 <= i < |v.fields["questions"].elems| ==> SurveyQuestionData(v.fields["questions"].elems[i])
  }

  // ---------------------------------------------------------------------
  // Answer schemas
  // ---------------------------------------------------------------------

  /** `TextSurveyAnswerData` */
  predicate TextSurveyAnswerData(v: Json) {
    && IsStrictObject(v, ANSWER_KEYS)
    && IsNonEmptyString(v.fields["id"])
    && IsLiteral(v.fields["kind"], TEXT_KIND)
    && IsString(v.fields["answer"])
  }

  /** `CheckSurveyAnswerData` */
  predicate CheckSurveyAnswerData(v: Json) {
    && IsStrictObject(v, ANSWER_KEYS)
    && IsNonEmptyString(v.fields["id"])
    && IsLiteral(v.fields["kind"], CHECK_KIND)
    && IsBoolean(v.fields["answer"])
  }

  /** `MultipleChoiceSurveyAnswerData` */
  predicate MultipleChoiceSurveyAnswerData(v: Json) {
    && IsStrictObject(v, ANSWER_KEYS)
    && IsNonEmptyString(v.fields["id"])
    && IsLiteral(v.fields["kind"], MULTIPLE_CHOICE_KIND)
    && IsNonEmptyString(v.fields["answer"])
  }

  /** `ScaleSurveyAnswerData` */
  predicate ScaleSurveyAnswerData(v: Json) {
    && IsStrictObject(v, ANSWER_KEYS)
    && IsNonEmptyString(v.fields["id"])
    && IsLiteral(v.fields["kind"], SCALE_KIND)
    && IsNonEmptyString(v.fields["answer"])
  }

  /** `SurveyAnswerData`: the union of the four answer schemas. */
  predicate SurveyAnswerData(v: Json) {
    || TextSurveyAnswerData(v)
    || CheckSurveyAnswerData(v)
    || MultipleChoiceSurveyAnswerData(v)
    || ScaleSurveyAnswerData(v)
  }

  /** `Type.Record(Type.String({ minLength: 1 }), SurveyAnswerData)` */
  predicate AnswerMapData(v: Json) {
    v.JObj? && forall key :: key in v.fields ==> |key| >= 1 && SurveyAnswerData(v.fields[key])
  }

  /** `SurveyStageParticipantAnswerData` */
  predicate SurveyStageParticipantAnswerData(v: Json) {
    && IsStrictObject(v, PARTICIPANT_ANSWER_KEYS)
    && IsLiteral(v.fields["kind"], SURVEY_STAGE_KIND)
    && AnswerMapData(v.fields["answerMap"])
  }

  // ---------------------------------------------------------------------
  // Strictness, uniformly over every object schema
  // ---------------------------------------------------------------------

  /** The object schemas declared in the validation file. */
  datatype ObjectSchema =
    | TextQuestionSchema | CheckQuestionSchema
    | MultipleChoiceItemSchema | MultipleChoiceQuestionSchema
    | ScaleItemSchema | ScaleQuestionSchema
    | SurveyStageConfigSchema
    | TextAnswerSchema | CheckAnswerSchema | MultipleChoiceAnswerSchema | ScaleAnswerSchema
    | ParticipantAnswerSchema

  function DeclaredKeys(s: ObjectSchema): set<string> {
    match s
    case TextQuestionSchema => QUESTION_KEYS
    case CheckQuestionSchema => QUESTION_KEYS
    case MultipleChoiceItemSchema => MULTIPLE_CHOICE_ITEM_KEYS
    case MultipleChoiceQuestionSchema => OPTION_QUESTION_KEYS
    case ScaleItemSchema => SCALE_ITEM_KEYS
    case ScaleQuestionSchema => OPTION_QUESTION_KEYS
    case SurveyStageConfigSchema => STAGE_CONFIG_KEYS
    case TextAnswerSchema => ANSWER_KEYS
    case CheckAnswerSchema => ANSWER_KEYS
    case MultipleChoiceAnswerSchema => ANSWER_KEYS
    case ScaleAnswerSchema => ANSWER_KEYS
    case ParticipantAnswerSchema => PARTICIPANT_ANSWER_KEYS
  }

  predicate Accepts(s: ObjectSchema, v: Json, ext: StageSchemas) {
    match s
    case TextQuestionSchema => TextSurveyQuestionData(v)
    case CheckQuestionSchema => CheckSurveyQuestionData(v)
    case MultipleChoiceItemSchema => MultipleChoiceItemData(v)
    case MultipleChoiceQuestionSchema => MultipleChoiceSurveyQuestionData(v)
    case ScaleItemSchema => ScaleItemData(v)
    case ScaleQuestionSchema => ScaleSurveyQuestionData(v)
    case SurveyStageConfigSchema => SurveyStageConfigData(v, ext)
    case TextAnswerSchema => TextSurveyAnswerData(v)
    case CheckAnswerSchema => CheckSurveyAnswerData(v)
    case MultipleChoiceAnswerSchema => MultipleChoiceSurveyAnswerData(v)
    case ScaleAnswerSchema => ScaleSurveyAnswerData(v)
    case ParticipantAnswerSchema => SurveyStageParticipantAnswerData(v)
  }

  /** Every accepted payload is an object carrying exactly the declared fields. */
  lemma AcceptedHasExactlyDeclaredFields(s: ObjectSchema, v: Json, ext: StageSchemas)
    requires Accepts(s, v, ext)
    ensures v.JObj? && v.fields.Keys == DeclaredKeys(s)
  {
  }

  /** A payload with a field the schema does not declare is rejected. */
  lemma ExtraFieldRejected(s: ObjectSchema, v: Json, ext: StageSchemas, extra: string)
    requires v.JObj? && extra in v.fields && extra !in DeclaredKeys(s)
    ensures !Accepts(s, v, ext)
  {
    if Accepts(s, v, ext) {
      AcceptedHasExactlyDeclaredFields(s, v, ext);
    }
  }

  /** A payload missing a declared field is rejected: every declared field is required. */
  lemma MissingFieldRejected(s: ObjectSchema, v: Json, ext: StageSchemas, key: string)
    requires key in DeclaredKeys(s) && !(v.JObj? && key in v.fields)
    ensures !Accepts(s, v, ext)
  {
    if Accepts(s, v, ext) {
      AcceptedHasExactlyDeclaredFields(s, v, ext);
    }
  }

  /** Every schema except the participant answer declares an `id`, and it must be non-empty. */
  lemma AcceptedIdNonEmpty(s: ObjectSchema, v: Json, ext: StageSchemas)
    requires s != ParticipantAnswerSchema && Accepts(s, v, ext)
    ensures "id" in v.fields && v.fields["id"].JStr? && v.fields["id"].s != ""
  {
  }

  /** An empty `id` fails every schema that declares one. */
  lemma EmptyIdRejected(s: ObjectSchema, v: Json, ext: StageSchemas)
    requires v.JObj? && "id" in v.fields && v.fields["id"] == JStr("")
    ensures !Accepts(s, v, ext)
  {
    if s == ParticipantAnswerSchema {
      ExtraFieldRejected(s, v, ext, "id");
    }
  }

  // ---------------------------------------------------------------------
  // The question union dispatches on `kind`
  // ---------------------------------------------------------------------

  /** A question member only accepts payloads carrying its own kind literal. */
  lemma QuestionMemberHasItsKind(k: QuestionKind, v: Json)
    requires QuestionMemberData(k, v)
    ensures v.JObj? && "kind" in v.fields && v.fields["kind"] == JStr(KindLiteral(k))
  {
  }

  /** The union members are mutually exclusive. */
  lemma QuestionMembersExclusive(k1: QuestionKind, k2: QuestionKind, v: Json)
    requires QuestionMemberData(k1, v) && QuestionMemberData(k2, v)
    ensures k1 == k2
  {
    QuestionMemberHasItsKind(k1, v);
    QuestionMemberHasItsKind(k2, v);
    assert KindLiteral(k1) == KindLiteral(k2);
  }

  /** A question is valid iff the member selected by its `kind` accepts it. */
  lemma SurveyQuestionByKind(v: Json, k: QuestionKind)
    requires v.JObj? && "kind" in v.fields && v.fields["kind"] == JStr(KindLiteral(k))
    ensures SurveyQuestionData(v) <==> QuestionMemberData(k, v)
  {
    if SurveyQuestionData(v) {
      var k' :| QuestionMemberData(k', v) by {
        if TextSurveyQuestionData(v) { assert QuestionMemberData(Text, v); }
        else if CheckSurveyQuestionData(v) { assert QuestionMemberData(Check, v); }
        else if MultipleChoiceSurveyQuestionData(v) { assert QuestionMemberData(MultipleChoice, v); }
        else { assert QuestionMemberData(Scale, v); }
      }
      QuestionMemberHasItsKind(k', v);
      assert KindLiteral(k') == KindLiteral(k);
    }
  }

  /** A payload whose `kind` is none of the four literals is not a question. */
  lemma UnknownQuestionKindRejected(v: Json)
    requires v.JObj? && "kind" in v.fields
    requires forall k: QuestionKind :: v.fields["kind"] != JStr(KindLiteral(k))
    ensures !SurveyQuestionData(v)
  {
    assert v.fields["kind"] != JStr(KindLiteral(Text));
    assert v.fields["kind"] != JStr(KindLiteral(Check));
    assert v.fields["kind"] != JStr(KindLiteral(MultipleChoice));
    assert v.fields["kind"] != JStr(KindLiteral(Scale));
  }

  /** A TEXT or CHECK question carrying `options` is rejected. */
  lemma PlainQuestionWithOptionsRejected(v: Json)
    requires v.JObj? && "options" in v.fields
    requires v.fields.Keys != OPTION_QUESTION_KEYS
    ensures !SurveyQuestionData(v)
  {
  }

  /** A TEXT question carrying `options` is rejected by every member of the union. */
  lemma TextQuestionWithOptionsRejected(v: Json)
    requires v.JObj? && "kind" in v.fields && v.fields["kind"] == JStr(TEXT_KIND) && "options" in v.fields
    ensures !SurveyQuestionData(v)
  {
    SurveyQuestionByKind(v, Text);
    ExtraFieldRejected(TextQuestionSchema, v, StageSchemas(_ => true, _ => true), "options");
  }

  /** A MULTIPLE_CHOICE question with one bad option is rejected, whatever its other options. */
  lemma BadChoiceFailsQuestion(v: Json, i: int)
    requires v.JObj? && "kind" in v.fields && v.fields["kind"] == JStr(MULTIPLE_CHOICE_KIND)
    requires "options" in v.fields && v.fields["options"].JArr?
    requires 0 <= i < |v.fields["options"].elems| && !MultipleChoiceItemData(v.fields["options"].elems[i])
    ensures !SurveyQuestionData(v)
  {
    SurveyQuestionByKind(v, MultipleChoice);
  }

  /** A SCALE question with one bad option is rejected, whatever its other options. */
  lemma BadScaleItemFailsQuestion(v: Json, i: int)
    requires v.JObj? && "kind" in v.fields && v.fields["kind"] == JStr(SCALE_KIND)
    requires "options" in v.fields && v.fields["options"].JArr?
    requires 0 <= i < |v.fields["options"].elems| && !ScaleItemData(v.fields["options"].elems[i])
    ensures !SurveyQuestionData(v)
  {
    SurveyQuestionByKind(v, Scale);
  }

  /** A MULTIPLE_CHOICE question is valid iff its id is non-empty and each option is a valid item. */
  lemma MultipleChoiceQuestionValidity(id: string, title: string, options: seq<Json>)
    ensures SurveyQuestionData(JObj(map["id" := JStr(id), "kind" := JStr(MULTIPLE_CHOICE_KIND),
                                        "questionTitle" := JStr(title), "options" := JArr(options)]))
        <==> |id| >= 1 && forall i :: 0 <= i < |options| ==> MultipleChoiceItemData(options[i])
  {
    var v := JObj(map["id" := JStr(id), "kind" := JStr(MULTIPLE_CHOICE_KIND),
                      "questionTitle" := JStr(title), "options" := JArr(options)]);
    assert v.fields.Keys == OPTION_QUESTION_KEYS;
    SurveyQuestionByKind(v, MultipleChoice);
  }

  /** A SCALE question is valid iff its id is non-empty and each option is a valid scale item. */
  lemma ScaleQuestionValidity(id: string, title: string, options: seq<Json>)
    ensures SurveyQuestionData(JObj(map["id" := JStr(id), "kind" := JStr(SCALE_KIND),
                                        "questionTitle" := JStr(title), "options" := JArr(options)]))
        <==> |id| >= 1 && forall i :: 0 <= i < |options| ==> ScaleItemData(options[i])
  {
    var v := JObj(map["id" := JStr(id), "kind" := JStr(SCALE_KIND),
                      "questionTitle" := JStr(title), "options" := JArr(options)]);
    assert v.fields.Keys == OPTION_QUESTION_KEYS;
    SurveyQuestionByKind(v, Scale);
  }

  // ---------------------------------------------------------------------
  // The stage config
  // ---------------------------------------------------------------------

  /** An accepted config is a SURVEY stage with a non-empty id and name, and every question valid. */
  lemma AcceptedStageConfig(v: Json, ext: StageSchemas)
    requires SurveyStageConfigData(v, ext)
    ensures v.fields["kind"] == JStr(SURVEY_STAGE_KIND)
    ensures v.fields["name"].JStr? && v.fields["name"].s != ""
    ensures v.fields["questions"].JArr?
    ensures forall q :: q in v.fields["questions"].elems ==> SurveyQuestionData(q)
  {
  }

  /** One invalid question fails the whole config. */
  lemma BadQuestionFailsConfig(v: Json, ext: StageSchemas, i: int)
    requires v.JObj? && "questions" in v.fields && v.fields["questions"].JArr?
    requires 0 <= i < |v.fields["questions"].elems| && !SurveyQuestionData(v.fields["questions"].elems[i])
    ensures !SurveyStageConfigData(v, ext)
  {
  }

  /** Appending a valid question to a valid config keeps it valid. */
  lemma AppendQuestionPreservesConfig(v: Json, ext: StageSchemas, q: Json)
    requires SurveyStageConfigData(v, ext) && SurveyQuestionData(q)
    ensures SurveyStageConfigData(
              JObj(v.fields["questions" := JArr(v.fields["questions"].elems + [q])]), ext)
  {
    var qs := v.fields["questions"].elems + [q];
    var w := JObj(v.fields["questions" := JArr(qs)]);
    assert w.fields.Keys == STAGE_CONFIG_KEYS;
    forall i | 0 <= i < |qs| ensures SurveyQuestionData(qs[i]) {
      if i < |qs| - 1 {
        assert qs[i] == v.fields["questions"].elems[i];
      }
    }
  }

  // ---------------------------------------------------------------------
  // Answers: the answer's type is fixed by its kind
  // ---------------------------------------------------------------------

  /** What `answer` must be for each kind, stated independently of the schemas. */
  predicate AnswerFitsKind(k: QuestionKind, answer: Json) {
    match k
    case Text => answer.JStr?
    case Check => answer.JBool?
    case MultipleChoice => answer.JStr? && answer.s != ""
    case Scale => answer.JStr? && answer.s != ""
  }

  function AnswerPayload(id: string, kind: string, answer: Json): Json {
    JObj(map["id" := JStr(id), "kind" := JStr(kind), "answer" := answer])
  }

  /** `{id, kind, answer}` is a valid answer iff the id is non-empty and `answer` fits the kind. */
  lemma AnswerValidity(id: string, k: QuestionKind, answer: Json)
    ensures SurveyAnswerData(AnswerPayload(id, KindLiteral(k), answer)) <==> |id| >= 1 && AnswerFitsKind(k, answer)
  {
    var v := AnswerPayload(id, KindLiteral(k), answer);
    assert v.fields.Keys == ANSWER_KEYS;
    assert v.fields["kind"] == JStr(KindLiteral(k));
  }

  /** An answer whose `kind` is none of the four literals is rejected. */
  lemma UnknownAnswerKindRejected(v: Json)
    requires v.JObj? && "kind" in v.fields
    requires forall k: QuestionKind :: v.fields["kind"] != JStr(KindLiteral(k))
    ensures !SurveyAnswerData(v)
  {
    assert v.fields["kind"] != JStr(KindLiteral(Text));
    assert v.fields["kind"] != JStr(KindLiteral(Check));
    assert v.fields["kind"] != JStr(KindLiteral(MultipleChoice));
    assert v.fields["kind"] != JStr(KindLiteral(Scale));
  }

  /** TEXT accepts the empty string; CHECK rejects the string "true"; MULTIPLE_CHOICE and SCALE reject "". */
  lemma AnswerTypeExamples()
    ensures SurveyAnswerData(AnswerPayload("q1", TEXT_KIND, JStr("")))
    ensures SurveyAnswerData(AnswerPayload("q1", CHECK_KIND, JBool(true)))
    ensures !SurveyAnswerData(AnswerPayload("q1", CHECK_KIND, JStr("true")))
    ensures SurveyAnswerData(AnswerPayload("q1", MULTIPLE_CHOICE_KIND, JStr("a")))
    ensures !SurveyAnswerData(AnswerPayload("q1", MULTIPLE_CHOICE_KIND, JStr("")))
    ensures !SurveyAnswerData(AnswerPayload("q1", SCALE_KIND, JStr("")))
    ensures !SurveyAnswerData(AnswerPayload("q1", TEXT_KIND, JBool(false)))
  {
    AnswerValidity("q1", Text, JStr(""));
    AnswerValidity("q1", Check, JBool(true));
    AnswerValidity("q1", Check, JStr("true"));
    AnswerValidity("q1", MultipleChoice, JStr("a"));
    AnswerValidity("q1", MultipleChoice, JStr(""));
    AnswerValidity("q1", Scale, JStr(""));
    AnswerValidity("q1", Text, JBool(false));
  }

  // ---------------------------------------------------------------------
  // The participant answer map
  // ---------------------------------------------------------------------

  /** One empty key or one invalid answer fails the whole participant answer. */
  lemma BadEntryFailsParticipantAnswer(v: Json, key: string)
    requires v.JObj? && "answerMap" in v.fields && v.fields["answerMap"].JObj?
    requires key in v.fields["answerMap"].fields
    requires key == "" || !SurveyAnswerData(v.fields["answerMap"].fields[key])
    ensures !SurveyStageParticipantAnswerData(v)
  {
  }

  /** Recording a valid answer under a non-empty key keeps a participant answer valid. */
  lemma RecordAnswerPreservesParticipantAnswer(v: Json, key: string, a: Json)
    requires SurveyStageParticipantAnswerData(v)
    requires key != "" && SurveyAnswerData(a)
    ensures SurveyStageParticipantAnswerData(
              JObj(v.fields["answerMap" := JObj(v.fields["answerMap"].fields[key := a])]))
  {
    var w := JObj(v.fields["answerMap" := JObj(v.fields["answerMap"].fields[key := a])]);
    assert w.fields.Keys == PARTICIPANT_ANSWER_KEYS;
  }

  // ---------------------------------------------------------------------
  // Typed view: what an accepted payload means
  // ---------------------------------------------------------------------

  datatype MultipleChoiceItem = MultipleChoiceItem(id: string, text: string, points: int)

  datatype ScaleItem = ScaleItem(id: string, value: int, description: string)

  datatype SurveyQuestion =
    | TextQuestion(id: string, questionTitle: string)
    | CheckQuestion(id: string, questionTitle: string)
    | MultipleChoiceQuestion(id: string, questionTitle: string, choices: seq<MultipleChoiceItem>)
    | ScaleQuestion(id: string, questionTitle: string, scale: seq<ScaleItem>)
  {
    function Kind(): QuestionKind {
      match this
      case TextQuestion(_, _) => Text
      case CheckQuestion(_, _) => Check
      case MultipleChoiceQuestion(_, _, _) => MultipleChoice
      case ScaleQuestion(_, _, _) => Scale
    }

    /** Every id in the question, its own and its options', is non-empty. */
    predicate WellFormed() {
      && id != ""
      && (MultipleChoiceQuestion? ==> forall i :: 0 <= i < |choices| ==> choices[i].id != "")
      && (ScaleQuestion? ==> forall i :: 0 <= i < |scale| ==> scale[i].id != "")
    }
  }

  datatype SurveyStageConfig =
    SurveyStageConfig(id: string, game: Json, name: string, descriptions: Json, questions: seq<SurveyQuestion>)
  {
    predicate WellFormed(ext: StageSchemas) {
      && id != "" && name != ""
      && ext.game(game) && ext.descriptions(descriptions)
      && forall i :: 0 <= i < |questions| ==> questions[i].WellFormed()
    }
  }

  datatype SurveyAnswer =
    | TextAnswer(id: string, text: string)
    | CheckAnswer(id: string, checked: bool)
    | MultipleChoiceAnswer(id: string, optionId: string)
    | ScaleAnswer(id: string, optionId: string)
  {
    function Kind(): QuestionKind {
      match this
      case TextAnswer(_, _) => Text
      case CheckAnswer(_, _) => Check
      case MultipleChoiceAnswer(_, _) => MultipleChoice
      case ScaleAnswer(_, _) => Scale
    }

    /** The id is non-empty, and a selected option's id is non-empty. */
    predicate WellFormed() {
      id != "" && ((MultipleChoiceAnswer? || ScaleAnswer?) ==> optionId != "")
    }
  }

  datatype SurveyStageParticipantAnswer = SurveyStageParticipantAnswer(answerMap: map<string, SurveyAnswer>)
  {
    predicate WellFormed() {
      forall key :: key in answerMap ==> key != "" && answerMap[key].WellFormed()
    }
  }

  // ----- encoding -----

  function EncodeMultipleChoiceItem(o: MultipleChoiceItem): Json {
    JObj(map["id" := JStr(o.id), "text" := JStr(o.text), "points" := JNum(o.points)])
  }

  function EncodeMultipleChoiceItems(os: seq<MultipleChoiceItem>): (r: seq<Json>)
    ensures |r| == |os|
  {
    if os == [] then [] else [EncodeMultipleChoiceItem(os[0])] + EncodeMultipleChoiceItems(os[1..])
  }

  function EncodeScaleItem(o: ScaleItem): Json {
    JObj(map["id" := JStr(o.id), "value" := JNum(o.value), "description" := JStr(o.description)])
  }

  function EncodeScaleItems(os: seq<ScaleItem>): (r: seq<Json>)
    ensures |r| == |os|
  {
    if os == [] then [] else [EncodeScaleItem(os[0])] + EncodeScaleItems(os[1..])
  }

  function EncodeSurveyQuestion(q: SurveyQuestion): Json {
    match q
    case TextQuestion(id, title) =>
      JObj(map["id" := JStr(id), "kind" := JStr(TEXT_KIND), "questionTitle" := JStr(title)])
    case CheckQuestion(id, title) =>
      JObj(map["id" := JStr(id), "kind" := JStr(CHECK_KIND), "questionTitle" := JStr(title)])
    case MultipleChoiceQuestion(id, title, os) =>
      JObj(map["id" := JStr(id), "kind" := JStr(MULTIPLE_CHOICE_KIND), "questionTitle" := JStr(title),
               "options" := JArr(EncodeMultipleChoiceItems(os))])
    case ScaleQuestion(id, title, os) =>
      JObj(map["id" := JStr(id), "kind" := JStr(SCALE_KIND), "questionTitle" := JStr(title),
               "options" := JArr(EncodeScaleItems(os))])
  }

  function EncodeSurveyQuestions(qs: seq<SurveyQuestion>): (r: seq<Json>)
    ensures |r| == |qs|
  {
    if qs == [] then [] else [EncodeSurveyQuestion(qs[0])] + EncodeSurveyQuestions(qs[1..])
  }

  function EncodeSurveyStageConfig(c: SurveyStageConfig): Json {
    JObj(map["id" := JStr(c.id), "kind" := JStr(SURVEY_STAGE_KIND), "game" := c.game, "name" := JStr(c.name),
             "descriptions" := c.descriptions, "questions" := JArr(EncodeSurveyQuestions(c.questions))])
  }

  function EncodeSurveyAnswer(a: SurveyAnswer): Json {
    match a
    case TextAnswer(id, text) => AnswerPayload(id, TEXT_KIND, JStr(text))
    case CheckAnswer(id, checked) => AnswerPayload(id, CHECK_KIND, JBool(checked))
    case MultipleChoiceAnswer(id, optionId) => AnswerPayload(id, MULTIPLE_CHOICE_KIND, JStr(optionId))
    case ScaleAnswer(id, optionId) => AnswerPayload(id, SCALE_KIND, JStr(optionId))
  }

  function EncodeAnswerMap(am: map<string, SurveyAnswer>): map<string, Json> {
    map key | key in am :: EncodeSurveyAnswer(am[key])
  }

  function EncodeParticipantAnswer(p: SurveyStageParticipantAnswer): Json {
    JObj(map["kind" := JStr(SURVEY_STAGE_KIND), "answerMap" := JObj(EncodeAnswerMap(p.answerMap))])
  }

  // ----- decoding: succeeds exactly on accepted payloads, and inverts encoding -----

  function DecodeMultipleChoiceItem(v: Json): (r: Option<MultipleChoiceItem>)
    ensures r.Some? <==> MultipleChoiceItemData(v)
    ensures r.Some? ==> r.value.id != "" && EncodeMultipleChoiceItem(r.value) == v
  {
    if MultipleChoiceItemData(v) then
      var o := MultipleChoiceItem(v.fields["id"].s, v.fields["text"].s, v.fields["points"].n);
      assert EncodeMultipleChoiceItem(o).fields == v.fields;
      Some(o)
    else None
  }

  function DecodeMultipleChoiceItems(s: seq<Json>): (r: Option<seq<MultipleChoiceItem>>)
    ensures r.Some? <==> forall i :: 0 <= i < |s| ==> MultipleChoiceItemData(s[i])
    ensures r.Some? ==> EncodeMultipleChoiceItems(r.value) == s
    ensures r.Some? ==> forall i :: 0 <= i < |r.value| ==> r.value[i].id != ""
  {
    if s == [] then Some([])
    else
      match (DecodeMultipleChoiceItem(s[0]), DecodeMultipleChoiceItems(s[1..]))
      case (Some(o), Some(os)) =>
        assert ([o] + os)[1..] == os;
        Some([o] + os)
      case (None, _) => None
      case (_, None) =>
        assert exists i :: 1 <= i < |s| && !MultipleChoiceItemData(s[i]) by {
          var j :| 0 <= j < |s[1..]| && !MultipleChoiceItemData(s[1..][j]);
          assert s[1..][j] == s[j + 1];
        }
        None
  }

  function DecodeScaleItem(v: Json): (r: Option<ScaleItem>)
    ensures r.Some? <==> ScaleItemData(v)
    ensures r.Some? ==> r.value.id != "" && EncodeScaleItem(r.value) == v
  {
    if ScaleItemData(v) then
      var o := ScaleItem(v.fields["id"].s, v.fields["value"].n, v.fields["description"].s);
      assert EncodeScaleItem(o).fields == v.fields;
      Some(o)
    else None
  }

  function DecodeScaleItems(s: seq<Json>): (r: Option<seq<ScaleItem>>)
    ensures r.Some? <==> forall i :: 0 <= i < |s| ==> ScaleItemData(s[i])
    ensures r.Some? ==> EncodeScaleItems(r.value) == s
    ensures r.Some? ==> forall i :: 0 <= i < |r.value| ==> r.value[i].id != ""
  {
    if s == [] then Some([])
    else
      match (DecodeScaleItem(s[0]), DecodeScaleItems(s[1..]))
      case (Some(o), Some(os)) =>
        assert ([o] + os)[1..] == os;
        Some([o] + os)
      case (None, _) => None
      case (_, None) =>
        assert exists i :: 1 <= i < |s| && !ScaleItemData(s[i]) by {
          var j :| 0 <= j < |s[1..]| && !ScaleItemData(s[1..][j]);
          assert s[1..][j] == s[j + 1];
        }
        None
  }

  function DecodeSurveyQuestion(v: Json): (r: Option<SurveyQuestion>)
    ensures r.Some? <==> SurveyQuestionData(v)
    ensures r.Some? ==> r.value.WellFormed() && EncodeSurveyQuestion(r.value) == v
  {
    if TextSurveyQuestionData(v) then
      var q := TextQuestion(v.fields["id"].s, v.fields["questionTitle"].s);
      assert EncodeSurveyQuestion(q).fields == v.fields;
      Some(q)
    else if CheckSurveyQuestionData(v) then
      var q := CheckQuestion(v.fields["id"].s, v.fields["questionTitle"].s);
      assert EncodeSurveyQuestion(q).fields == v.fields;
      Some(q)
    else if MultipleChoiceSurveyQuestionData(v) then
      var os := DecodeMultipleChoiceItems(v.fields["options"].elems);
      var q := MultipleChoiceQuestion(v.fields["id"].s, v.fields["questionTitle"].s, os.value);
      assert EncodeSurveyQuestion(q).fields == v.fields;
      Some(q)
    else if ScaleSurveyQuestionData(v) then
      var os := DecodeScaleItems(v.fields["options"].elems);
      var q := ScaleQuestion(v.fields["id"].s, v.fields["questionTitle"].s, os.value);
      assert EncodeSurveyQuestion(q).fields == v.fields;
      Some(q)
    else None
  }

  function DecodeSurveyQuestions(s: seq<Json>): (r: Option<seq<SurveyQuestion>>)
    ensures r.Some? <==> forall i :: 0 <= i < |s| ==> SurveyQuestionData(s[i])
    ensures r.Some? ==> EncodeSurveyQuestions(r.value) == s
    ensures r.Some? ==> forall i :: 0 <= i < |r.value| ==> r.value[i].WellFormed()
  {
    if s == [] then Some([])
    else
      match (DecodeSurveyQuestion(s[0]), DecodeSurveyQuestions(s[1..]))
      case (Some(q), Some(qs)) =>
        assert ([q] + qs)[1..] == qs;
        Some([q] + qs)
      case (None, _) => None
      case (_, None) =>
        assert exists i :: 1 <= i < |s| && !SurveyQuestionData(s[i]) by {
          var j :| 0 <= j < |s[1..]| && !SurveyQuestionData(s[1..][j]);
          assert s[1..][j] == s[j + 1];
        }
        None
  }

  function DecodeSurveyStageConfig(v: Json, ext: StageSchemas): (r: Option<SurveyStageConfig>)
    ensures r.Some? <==> SurveyStageConfigData(v, ext)
    ensures r.Some? ==> r.value.WellFormed(ext) && EncodeSurveyStageConfig(r.value) == v
  {
    if SurveyStageConfigData(v, ext) then
      var qs := DecodeSurveyQuestions(v.fields["questions"].elems);
      var c := SurveyStageConfig(v.fields["id"].s, v.fields["game"], v.fields["name"].s,
                                 v.fields["descriptions"], qs.value);
      assert EncodeSurveyStageConfig(c).fields == v.fields;
      Some(c)
    else None
  }

  function DecodeSurveyAnswer(v: Json): (r: Option<SurveyAnswer>)
    ensures r.Some? <==> SurveyAnswerData(v)
    ensures r.Some? ==> r.value.WellFormed() && EncodeSurveyAnswer(r.value) == v
  {
    if TextSurveyAnswerData(v) then
      var a := TextAnswer(v.fields["id"].s, v.fields["answer"].s);
      assert EncodeSurveyAnswer(a).fields == v.fields;
      Some(a)
    else if CheckSurveyAnswerData(v) then
      var a := CheckAnswer(v.fields["id"].s, v.fields["answer"].b);
      assert EncodeSurveyAnswer(a).fields == v.fields;
      Some(a)
    else if MultipleChoiceSurveyAnswerData(v) then
      var a := MultipleChoiceAnswer(v.fields["id"].s, v.fields["answer"].s);
      assert EncodeSurveyAnswer(a).fields == v.fields;
      Some(a)
    else if ScaleSurveyAnswerData(v) then
      var a := ScaleAnswer(v.fields["id"].s, v.fields["answer"].s);
      assert EncodeSurveyAnswer(a).fields == v.fields;
      Some(a)
    else None
  }

  /** Encoding the answers decoded from `m` gives back `m`. */
  lemma EncodeDecodedAnswerMap(m: map<string, Json>, am: map<string, SurveyAnswer>)
    requires am.Keys == m.Keys
    requires forall key :: key in m ==> DecodeSurveyAnswer(m[key]) == Some(am[key])
    ensures EncodeAnswerMap(am) == m
  {
    var e := EncodeAnswerMap(am);
    forall key | key in m ensures e[key] == m[key] {
      var d := DecodeSurveyAnswer(m[key]);
      assert EncodeSurveyAnswer(d.value) == m[key];
    }
    assert e.Keys == m.Keys;
  }

  function DecodeAnswerMap(m: map<string, Json>): (r: Option<map<string, SurveyAnswer>>)
    ensures r.Some? <==> AnswerMapData(JObj(m))
    ensures r.Some? ==> SurveyStageParticipantAnswer(r.value).WellFormed()
    ensures r.Some? ==> EncodeAnswerMap(r.value) == m
  {
    if AnswerMapData(JObj(m)) then
      var am := map key | key in m :: DecodeSurveyAnswer(m[key]).value;
      EncodeDecodedAnswerMap(m, am);
      Some(am)
    else None
  }

  lemma EncodeParticipantAnswerFields(v: Json, p: SurveyStageParticipantAnswer)
    requires IsStrictObject(v, PARTICIPANT_ANSWER_KEYS) && IsLiteral(v.fields["kind"], SURVEY_STAGE_KIND)
    requires v.fields["answerMap"] == JObj(EncodeAnswerMap(p.answerMap))
    ensures EncodeParticipantAnswer(p) == v
  {
    var e := EncodeParticipantAnswer(p);
    assert e.fields.Keys == v.fields.Keys;
    assert e.fields["kind"] == v.fields["kind"];
    assert e.fields == v.fields;
  }

  function DecodeParticipantAnswer(v: Json): (r: Option<SurveyStageParticipantAnswer>)
    ensures r.Some? <==> SurveyStageParticipantAnswerData(v)
    ensures r.Some? ==> r.value.WellFormed() && EncodeParticipantAnswer(r.value) == v
  {
    if SurveyStageParticipantAnswerData(v) then
      var am := DecodeAnswerMap(v.fields["answerMap"].fields);
      var p := SurveyStageParticipantAnswer(am.value);
      EncodeParticipantAnswerFields(v, p);
      Some(p)
    else None
  }

  // ----- the typed view round-trips -----

  lemma {:induction false} MultipleChoiceItemsRoundTrip(os: seq<MultipleChoiceItem>)
    requires forall i :: 0 <= i < |os| ==> os[i].id != ""
    ensures DecodeMultipleChoiceItems(EncodeMultipleChoiceItems(os)) == Some(os)
  {
    if os != [] {
      MultipleChoiceItemsRoundTrip(os[1..]);
      var o := os[0];
      assert EncodeMultipleChoiceItem(o).fields.Keys == MULTIPLE_CHOICE_ITEM_KEYS;
      assert DecodeMultipleChoiceItem(EncodeMultipleChoiceItem(o)) == Some(o);
      assert EncodeMultipleChoiceItems(os)[1..] == EncodeMultipleChoiceItems(os[1..]);
      assert [o] + os[1..] == os;
    }
  }

  lemma {:induction false} ScaleItemsRoundTrip(os: seq<ScaleItem>)
    requires forall i :: 0 <= i < |os| ==> os[i].id != ""
    ensures DecodeScaleItems(EncodeScaleItems(os)) == Some(os)
  {
    if os != [] {
      ScaleItemsRoundTrip(os[1..]);
      var o := os[0];
      assert EncodeScaleItem(o).fields.Keys == SCALE_ITEM_KEYS;
      assert DecodeScaleItem(EncodeScaleItem(o)) == Some(o);
      assert EncodeScaleItems(os)[1..] == EncodeScaleItems(os[1..]);
      assert [o] + os[1..] == os;
    }
  }

  /** A well-formed question encodes to a payload the schema accepts, and decodes back to itself. */
  lemma SurveyQuestionRoundTrip(q: SurveyQuestion)
    requires q.WellFormed()
    ensures DecodeSurveyQuestion(EncodeSurveyQuestion(q)) == Some(q)
    ensures SurveyQuestionData(EncodeSurveyQuestion(q))
  {
    var v := EncodeSurveyQuestion(q);
    match q {
      case TextQuestion(_, _) =>
        assert v.fields.Keys == QUESTION_KEYS;
        assert TextSurveyQuestionData(v);
      case CheckQuestion(_, _) =>
        assert v.fields.Keys == QUESTION_KEYS;
        assert CheckSurveyQuestionData(v);
        assert !TextSurveyQuestionData(v);
      case MultipleChoiceQuestion(_, _, os) =>
        assert v.fields.Keys == OPTION_QUESTION_KEYS;
        MultipleChoiceItemsRoundTrip(os);
        assert MultipleChoiceSurveyQuestionData(v);
      case ScaleQuestion(_, _, os) =>
        assert v.fields.Keys == OPTION_QUESTION_KEYS;
        ScaleItemsRoundTrip(os);
        assert ScaleSurveyQuestionData(v);
        assert !MultipleChoiceSurveyQuestionData(v);
    }
  }

  lemma {:induction false} SurveyQuestionsRoundTrip(qs: seq<SurveyQuestion>)
    requires forall i :: 0 <= i < |qs| ==> qs[i].WellFormed()
    ensures DecodeSurveyQuestions(EncodeSurveyQuestions(qs)) == Some(qs)
  {
    if qs != [] {
      SurveyQuestionsRoundTrip(qs[1..]);
      SurveyQuestionRoundTrip(qs[0]);
      assert EncodeSurveyQuestions(qs)[1..] == EncodeSurveyQuestions(qs[1..]);
      assert [qs[0]] + qs[1..] == qs;
    }
  }

  /** A well-formed config encodes to an accepted payload and decodes back to itself. */
  lemma SurveyStageConfigRoundTrip(c: SurveyStageConfig, ext: StageSchemas)
    requires c.WellFormed(ext)
    ensures DecodeSurveyStageConfig(EncodeSurveyStageConfig(c), ext) == Some(c)
    ensures SurveyStageConfigData(EncodeSurveyStageConfig(c), ext)
  {
    var v := EncodeSurveyStageConfig(c);
    assert v.fields.Keys == STAGE_CONFIG_KEYS;
    SurveyQuestionsRoundTrip(c.questions);
  }

  /** A well-formed answer encodes to an accepted payload of its own kind and decodes back to itself. */
  lemma SurveyAnswerRoundTrip(a: SurveyAnswer)
    requires a.WellFormed()
    ensures DecodeSurveyAnswer(EncodeSurveyAnswer(a)) == Some(a)
    ensures SurveyAnswerData(EncodeSurveyAnswer(a))
    ensures EncodeSurveyAnswer(a).fields["kind"] == JStr(KindLiteral(a.Kind()))
  {
    var v := EncodeSurveyAnswer(a);
    assert v.fields.Keys == ANSWER_KEYS;
    match a {
      case TextAnswer(_, _) =>
      case CheckAnswer(_, _) =>
        assert !TextSurveyAnswerData(v);
      case MultipleChoiceAnswer(_, _) =>
        assert !TextSurveyAnswerData(v) && !CheckSurveyAnswerData(v);
      case ScaleAnswer(_, _) =>
        assert !TextSurveyAnswerData(v) && !CheckSurveyAnswerData(v) && !MultipleChoiceSurveyAnswerData(v);
    }
  }

  /** A well-formed participant answer encodes to an accepted payload and decodes back to itself. */
  lemma ParticipantAnswerRoundTrip(p: SurveyStageParticipantAnswer)
    requires p.WellFormed()
    ensures DecodeParticipantAnswer(EncodeParticipantAnswer(p)) == Some(p)
    ensures SurveyStageParticipantAnswerData(EncodeParticipantAnswer(p))
  {
    var v := EncodeParticipantAnswer(p);
    var m := v.fields["answerMap"].fields;
    assert v.fields.Keys == PARTICIPANT_ANSWER_KEYS;
    forall key | key in m ensures |key| >= 1 && SurveyAnswerData(m[key]) && DecodeSurveyAnswer(m[key]) == Some(p.answerMap[key]) {
      SurveyAnswerRoundTrip(p.answerMap[key]);
    }
    assert SurveyStageParticipantAnswerData(v);
    var d := DecodeParticipantAnswer(v);
    assert d.value.answerMap == p.answerMap;
  }

  /**
   * A SURVEY stage with one MULTIPLE_CHOICE question whose options are
   * "a" (Yes, 1 point) and "b" (No, 0 points) is accepted; answering it with
   * option "a" is accepted and answering it with "" is not.
   */
  lemma MultipleChoiceScenario(ext: StageSchemas, game: Json, descriptions: Json)
    requires ext.game(game) && ext.descriptions(descriptions)
    ensures SurveyStageConfigData(EncodeSurveyStageConfig(
              SurveyStageConfig("survey-1", game, "Survey", descriptions,
                [MultipleChoiceQuestion("q1", "Agree?", [MultipleChoiceItem("a", "Yes", 1), MultipleChoiceItem("b", "No", 0)])])), ext)
    ensures SurveyAnswerData(EncodeSurveyAnswer(MultipleChoiceAnswer("q1", "a")))
    ensures !SurveyAnswerData(AnswerPayload("q1", MULTIPLE_CHOICE_KIND, JStr("")))
  {
    var q := MultipleChoiceQuestion("q1", "Agree?", [MultipleChoiceItem("a", "Yes", 1), MultipleChoiceItem("b", "No", 0)]);
    var c := SurveyStageConfig("survey-1", game, "Survey", descriptions, [q]);
    assert q.WellFormed();
    assert c.WellFormed(ext);
    SurveyStageConfigRoundTrip(c, ext);
    SurveyAnswerRoundTrip(MultipleChoiceAnswer("q1", "a"));
    AnswerValidity("q1", MultipleChoice, JStr(""));
  }
}
