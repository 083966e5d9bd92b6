# Deliberation experiments: survey schemas, experiment projection, countdown timer

This project models three parts of a platform for running multi-stage
deliberation experiments, and proves properties of each.

- **Survey schemas** (`survey_validation.dfy`, over the value type in `json_value.dfy`).
  These are the closed TypeBox schemas that guard writes of a SURVEY stage
  config and of a participant's survey answers. Each schema is a predicate on
  a JSON-like value. An object schema accepts exactly its declared fields, all
  of them required. The question and answer unions are disjunctions of their
  four members. A typed view of the accepted values is the independent
  reference: `Decode*` succeeds exactly on accepted payloads, `Encode*` inverts
  it, and well-formed typed values round-trip.
- **Experiment projection** (`experiment_service.dfy`). `ExperimentService` is
  a class with the source's fields: `experiment`, `stageConfigMap`,
  `unsubscribe` and the two loading flags. An `effects` log records
  subscriptions, releases and the clearing of state, in order. Snapshots are
  plain values. The `stages` getter and the snapshot handler keep their loops
  and are proved against the spec functions `StagesOf` and `ApplyDocs`.
- **Countdown timer and small checks** (`angular_utils.dfy`).
  `LocalStorageTimer` is a class over a shared `Storage` object that stands for
  local storage. Each firing of the interval is a `Tick` call, and `onFinish`
  calls are counted. The pure step function `TickState` is used to prove what
  a run of ticks does. `ForbiddenValueValidator` and `AssertSignalCast` are
  functions.

The literal strings of `SurveyQuestionKind` and `StageKind.SURVEY` are defined
in `survey_stage.ts` and `stage.ts`, which are not part of this model. The
model uses "text", "check", "mc", "scale" and "survey". Every proof relies only
on these literals being pairwise distinct.

Three things the code does not do, and the model does not either:

- The answer validators do not check an answer's kind against its question's kind.
- The schemas only accept or reject; they report no field paths.
- The loading flags are set by `loadExperiment` and cleared by each subscription's
  callback. They are not derived from whether a subscription has delivered.

## Model

| member | source | states |
|---|---|---|
| SurveyValidation.TextSurveyQuestionData | utils/src/stages/survey_stage.validation.ts:14-21 | Definition of the TEXT question schema: a strict object {id non-empty, kind TEXT, questionTitle string}; the strictness and union lemmas are about it |
| SurveyValidation.CheckSurveyQuestionData | utils/src/stages/survey_stage.validation.ts:24-31 | Definition of the CHECK question schema: a strict object {id non-empty, kind CHECK, questionTitle string} |
| SurveyValidation.MultipleChoiceItemData | utils/src/stages/survey_stage.validation.ts:34-41 | Definition of the option schema: a strict object {id non-empty, text string, points number}; `DecodeMultipleChoiceItem` is its reference |
| SurveyValidation.MultipleChoiceSurveyQuestionData | utils/src/stages/survey_stage.validation.ts:44-52 | Definition of the MULTIPLE_CHOICE question schema: the question fields plus an array of valid options; `MultipleChoiceQuestionValidity` is about it |
| SurveyValidation.ScaleItemData | utils/src/stages/survey_stage.validation.ts:55-62 | Definition of the scale option schema: a strict object {id non-empty, value number, description string}; `DecodeScaleItem` is its reference |
| SurveyValidation.ScaleSurveyQuestionData | utils/src/stages/survey_stage.validation.ts:65-73 | Definition of the SCALE question schema: the question fields plus an array of valid scale options; `ScaleQuestionValidity` is about it |
| SurveyValidation.QuestionMemberData | utils/src/stages/survey_stage.validation.ts:76-81 | The union member selected by a question kind; `SurveyQuestionByKind` and `QuestionMembersExclusive` are about it |
| SurveyValidation.SurveyQuestionData | utils/src/stages/survey_stage.validation.ts:76-81 | Definition of the question union: any of the four question schemas accepts; `DecodeSurveyQuestion` is its reference |
| SurveyValidation.SurveyStageConfigData | utils/src/stages/survey_stage.validation.ts:84-94 | Definition of the stage config schema, over given `game` and `descriptions` schemas; `AcceptedStageConfig` and `DecodeSurveyStageConfig` are about it |
| SurveyValidation.TextSurveyAnswerData | utils/src/stages/survey_stage.validation.ts:101-108 | Definition of the TEXT answer schema: a strict object {id non-empty, kind TEXT, answer string}; `AnswerValidity` is about it |
| SurveyValidation.CheckSurveyAnswerData | utils/src/stages/survey_stage.validation.ts:111-118 | Definition of the CHECK answer schema: a strict object {id non-empty, kind CHECK, answer boolean} |
| SurveyValidation.MultipleChoiceSurveyAnswerData | utils/src/stages/survey_stage.validation.ts:121-128 | Definition of the MULTIPLE_CHOICE answer schema: a strict object {id non-empty, kind MULTIPLE_CHOICE, answer non-empty string} |
| SurveyValidation.ScaleSurveyAnswerData | utils/src/stages/survey_stage.validation.ts:131-138 | Definition of the SCALE answer schema: a strict object {id non-empty, kind SCALE, answer non-empty string} |
| SurveyValidation.SurveyAnswerData | utils/src/stages/survey_stage.validation.ts:141-146 | Definition of the answer union: any of the four answer schemas accepts; `DecodeSurveyAnswer` is its reference |
| SurveyValidation.AnswerMapData | utils/src/stages/survey_stage.validation.ts:152-155 | Definition of the answer record: every key non-empty and every value a valid answer; `DecodeAnswerMap` is its reference |
| SurveyValidation.SurveyStageParticipantAnswerData | utils/src/stages/survey_stage.validation.ts:149-157 | Definition of the participant answer schema: a strict object {kind SURVEY, answerMap}; `DecodeParticipantAnswer` is its reference |
| SurveyValidation.Accepts | utils/src/stages/survey_stage.validation.ts:7-157 | Which schema predicate each of the twelve object schemas is; the strictness lemmas quantify over it |
| SurveyValidation.AcceptedHasExactlyDeclaredFields | utils/src/stages/survey_stage.validation.ts:7-157 | Every object schema accepts only objects whose field names are exactly its declared fields |
| SurveyValidation.ExtraFieldRejected | utils/src/stages/survey_stage.validation.ts:7 | Strictness: a field a schema does not declare makes every object schema reject the payload |
| SurveyValidation.MissingFieldRejected | utils/src/stages/survey_stage.validation.ts:14-157 | Every declared field is required: a payload without it is rejected |
| SurveyValidation.AcceptedIdNonEmpty | utils/src/stages/survey_stage.validation.ts:14-138 | Every schema except the participant answer accepts only a non-empty string `id` |
| SurveyValidation.EmptyIdRejected | utils/src/stages/survey_stage.validation.ts:14-157 | An empty `id` fails every object schema |
| SurveyValidation.QuestionMemberHasItsKind | utils/src/stages/survey_stage.validation.ts:14-73 | Each question schema accepts only payloads whose `kind` is its own literal |
| SurveyValidation.QuestionMembersExclusive | utils/src/stages/survey_stage.validation.ts:75-81 | No payload is accepted by two members of the question union |
| SurveyValidation.SurveyQuestionByKind | utils/src/stages/survey_stage.validation.ts:75-81 | A question is valid iff the union member selected by its `kind` accepts it |
| SurveyValidation.UnknownQuestionKindRejected | utils/src/stages/survey_stage.validation.ts:75-81 | A question whose `kind` is none of the four literals is rejected |
| SurveyValidation.PlainQuestionWithOptionsRejected | utils/src/stages/survey_stage.validation.ts:14-31 | A question carrying `options` without exactly the option-question fields is rejected |
| SurveyValidation.TextQuestionWithOptionsRejected | utils/src/stages/survey_stage.validation.ts:14-21 | A TEXT question carrying `options` is rejected |
| SurveyValidation.BadChoiceFailsQuestion | utils/src/stages/survey_stage.validation.ts:33-52 | One invalid option fails a MULTIPLE_CHOICE question |
| SurveyValidation.BadScaleItemFailsQuestion | utils/src/stages/survey_stage.validation.ts:54-73 | One invalid option fails a SCALE question |
| SurveyValidation.MultipleChoiceQuestionValidity | utils/src/stages/survey_stage.validation.ts:33-52 | A MULTIPLE_CHOICE question is valid iff its id is non-empty and every option has a non-empty id, a string text and numeric points |
| SurveyValidation.ScaleQuestionValidity | utils/src/stages/survey_stage.validation.ts:54-73 | A SCALE question is valid iff its id is non-empty and every option has a non-empty id, a numeric value and a string description |
| SurveyValidation.AcceptedStageConfig | utils/src/stages/survey_stage.validation.ts:83-94 | An accepted stage config has kind SURVEY, a non-empty name and only valid questions |
| SurveyValidation.BadQuestionFailsConfig | utils/src/stages/survey_stage.validation.ts:91 | One invalid question fails the whole config |
| SurveyValidation.AppendQuestionPreservesConfig | utils/src/stages/survey_stage.validation.ts:83-94 | Appending a valid question to a valid config keeps it valid |
| SurveyValidation.AnswerValidity | utils/src/stages/survey_stage.validation.ts:100-146 | `{id, kind, answer}` is valid iff the id is non-empty and the answer fits the kind: any string for TEXT, a boolean for CHECK, a non-empty string for MULTIPLE_CHOICE and SCALE |
| SurveyValidation.UnknownAnswerKindRejected | utils/src/stages/survey_stage.validation.ts:140-146 | An answer whose `kind` is none of the four literals is rejected |
| SurveyValidation.AnswerTypeExamples | utils/src/stages/survey_stage.validation.ts:100-138 | TEXT accepts "", CHECK rejects the string "true", MULTIPLE_CHOICE and SCALE reject "", TEXT rejects a boolean |
| SurveyValidation.BadEntryFailsParticipantAnswer | utils/src/stages/survey_stage.validation.ts:148-157 | One empty key or one invalid answer fails the whole participant answer |
| SurveyValidation.RecordAnswerPreservesParticipantAnswer | utils/src/stages/survey_stage.validation.ts:148-157 | Recording a valid answer under a non-empty key keeps a participant answer valid |
| SurveyValidation.DecodeMultipleChoiceItem | utils/src/stages/survey_stage.validation.ts:33-41 | Decoding succeeds iff the item schema accepts, and re-encoding gives the payload back |
| SurveyValidation.DecodeMultipleChoiceItems | utils/src/stages/survey_stage.validation.ts:49 | An option array decodes iff every element is a valid item, and re-encodes to itself |
| SurveyValidation.DecodeScaleItem | utils/src/stages/survey_stage.validation.ts:54-62 | Decoding succeeds iff the scale item schema accepts, and re-encoding gives the payload back |
| SurveyValidation.DecodeScaleItems | utils/src/stages/survey_stage.validation.ts:70 | A scale option array decodes iff every element is valid, and re-encodes to itself |
| SurveyValidation.DecodeSurveyQuestion | utils/src/stages/survey_stage.validation.ts:75-81 | A question decodes iff the union accepts it, into a well-formed question that re-encodes to the payload |
| SurveyValidation.DecodeSurveyQuestions | utils/src/stages/survey_stage.validation.ts:91 | A question array decodes iff every element is a valid question |
| SurveyValidation.DecodeSurveyStageConfig | utils/src/stages/survey_stage.validation.ts:83-94 | A config decodes iff the schema accepts it, into a well-formed config that re-encodes to the payload |
| SurveyValidation.DecodeSurveyAnswer | utils/src/stages/survey_stage.validation.ts:140-146 | An answer decodes iff the union accepts it, into a well-formed answer that re-encodes to the payload |
| SurveyValidation.DecodeAnswerMap | utils/src/stages/survey_stage.validation.ts:152-155 | An answer map decodes iff every key is non-empty and every value is a valid answer |
| SurveyValidation.DecodeParticipantAnswer | utils/src/stages/survey_stage.validation.ts:148-157 | A participant answer decodes iff the schema accepts it, and re-encodes to the payload |
| SurveyValidation.MultipleChoiceItemsRoundTrip | utils/src/stages/survey_stage.validation.ts:33-52 | Well-formed options encode to an array that decodes back to them |
| SurveyValidation.ScaleItemsRoundTrip | utils/src/stages/survey_stage.validation.ts:54-73 | Well-formed scale options encode to an array that decodes back to them |
| SurveyValidation.SurveyQuestionRoundTrip | utils/src/stages/survey_stage.validation.ts:75-81 | A well-formed question encodes to an accepted payload that decodes back to it |
| SurveyValidation.SurveyQuestionsRoundTrip | utils/src/stages/survey_stage.validation.ts:91 | Well-formed questions encode to an array that decodes back to them |
| SurveyValidation.SurveyStageConfigRoundTrip | utils/src/stages/survey_stage.validation.ts:83-94 | A well-formed config encodes to an accepted payload that decodes back to it |
| SurveyValidation.SurveyAnswerRoundTrip | utils/src/stages/survey_stage.validation.ts:140-146 | A well-formed answer encodes to an accepted payload of its own kind that decodes back to it |
| SurveyValidation.ParticipantAnswerRoundTrip | utils/src/stages/survey_stage.validation.ts:148-157 | A well-formed participant answer encodes to an accepted payload that decodes back to it |
| SurveyValidation.MultipleChoiceScenario | utils/src/stages/survey_stage.validation.ts:121-128 | A config with one MULTIPLE_CHOICE question is accepted; answer "a" is accepted and "" is rejected |
| ExperimentService.StageIdsOf | frontend/src/services/experiment.service.ts:116-118 | Definition of `experiment?.stageIds ?? []`; the stages lemmas are stated over the ids it gives |
| ExperimentService.StagesOf | frontend/src/services/experiment.service.ts:120-128 | Definition of the stages list; `StagesOfAppend`, `StagesOfLength`, `StagesOfMembers` and `StagesOfLocal` are about it |
| ExperimentService.ApplyDocs | frontend/src/services/experiment.service.ts:92-95 | Definition of writing documents into the map one after another; `ApplyDocsOverrides`, `ApplyDocsKeys`, `ApplyDocsWrites` and `ApplyDocsKeepsOthers` are about it |
| ExperimentService.HandleStagesSnapshot | frontend/src/services/experiment.service.ts:86-98 | Definition of what the stage callback does to the map; `HandleStagesSnapshotIdempotent` and `RemovedChangeIsWritten` are about it |
| ExperimentService.ExperimentService.IsLoading | frontend/src/services/experiment.service.ts:43-48 | The `isLoading` getter: either flag set; `SetLoading` and `LoadScenario` state its value |
| ExperimentService.ExperimentService.StageIds | frontend/src/services/experiment.service.ts:116-118 | The `stageIds` getter over the current experiment; `Stages`, `GetStageIndex` and `GetNextStageId` are stated over it |
| ExperimentService.ExperimentOf | frontend/src/services/experiment.service.ts:71 | The stored record takes the document id unless the data carries its own `id`; a missing document gives no stage ids |
| ExperimentService.StagesOfAppend | frontend/src/services/experiment.service.ts:120-128 | The stages projection distributes over concatenation of the id list, so it keeps the id order |
| ExperimentService.StagesOfSingleton | frontend/src/services/experiment.service.ts:122-126 | One id contributes its config when loaded and nothing otherwise |
| ExperimentService.StagesOfLength | frontend/src/services/experiment.service.ts:120-128 | The stages list is never longer than the id list, and is as long iff every id is loaded |
| ExperimentService.StagesOfMembers | frontend/src/services/experiment.service.ts:120-128 | A config is listed iff some listed id is loaded with it |
| ExperimentService.StagesOfLocal | frontend/src/services/experiment.service.ts:120-128 | The stages list depends only on the map entries of the listed ids |
| ExperimentService.IndexOf | frontend/src/services/experiment.service.ts:143-145 | The first index of the id, or -1 exactly when it is absent |
| ExperimentService.ChangedDocs | frontend/src/services/experiment.service.ts:87-90 | The changed documents when there are changes, and all documents otherwise |
| ExperimentService.ApplyDocsOverrides | frontend/src/services/experiment.service.ts:92-95 | Writing documents into a map overrides it by the documents' own entries |
| ExperimentService.ApplyDocsKeys | frontend/src/services/experiment.service.ts:92-95 | The map afterwards has exactly the old keys plus the documents' ids |
| ExperimentService.ApplyDocsWrites | frontend/src/services/experiment.service.ts:92-95 | Each document's id maps to the config of the last document carrying that id |
| ExperimentService.ApplyDocsKeepsOthers | frontend/src/services/experiment.service.ts:92-95 | Entries of other ids are unchanged, and none is deleted |
| ExperimentService.HandleStagesSnapshotIdempotent | frontend/src/services/experiment.service.ts:86-98 | Applying the same stage snapshot twice gives the same map and the same stages as once |
| ExperimentService.RemovedChangeIsWritten | frontend/src/services/experiment.service.ts:87-95 | A removed document is written back into the map like any other change |
| ExperimentService.NatToDecimal | frontend/src/services/experiment.service.ts:139 | A stage number renders as a non-empty string of decimal digits with no leading zero, as a template literal renders it |
| ExperimentService.DecimalRoundTrip | frontend/src/services/experiment.service.ts:139 | Reading the rendered digits back gives the number |
| ExperimentService.ExperimentService.constructor | frontend/src/services/experiment.service.ts:28-41 | A new service has no experiment, an empty map, no handles and both flags false |
| ExperimentService.ExperimentService.SetLoading | frontend/src/services/experiment.service.ts:43-53 | Assigning `isLoading := v` sets both flags to v, so the getter reads v back |
| ExperimentService.ExperimentService.Stages | frontend/src/services/experiment.service.ts:120-128 | The loop returns `StagesOf` of the stage ids and the map, never longer than the ids |
| ExperimentService.ExperimentService.GetStage | frontend/src/services/experiment.service.ts:130-132 | The loaded config of the id, or none when it is not loaded |
| ExperimentService.ExperimentService.GetStageIndex | frontend/src/services/experiment.service.ts:143-145 | The first index of the id in the stage ids, or -1 exactly when it is absent |
| ExperimentService.ExperimentService.GetNextStageId | frontend/src/services/experiment.service.ts:147-153 | The id after the first occurrence; none at the last id and none when absent |
| ExperimentService.ExperimentService.GetStageName | frontend/src/services/experiment.service.ts:134-141 | "Loading..." while loading; otherwise the name, or "undefined" when not loaded, after "<index+1>. " when numbered, the number in decimal with no leading zero |
| ExperimentService.ExperimentService.UnsubscribeAll | frontend/src/services/experiment.service.ts:103-110 | Releases every stored handle in order and only then clears state: no handles, no map entries, no experiment |
| ExperimentService.ExperimentService.LoadExperiment | frontend/src/services/experiment.service.ts:62-101 | Releases and clears first, sets both flags, then registers exactly the two new subscriptions |
| ExperimentService.ExperimentService.UpdateForCurrentRoute | frontend/src/services/experiment.service.ts:55-60 | Reloads iff the route id differs from the current experiment's id; otherwise nothing changes |
| ExperimentService.ExperimentService.OnExperimentSnapshot | frontend/src/services/experiment.service.ts:70-73 | Stores the record of the document and clears the experiment loading flag |
| ExperimentService.ExperimentService.OnStagesSnapshot | frontend/src/services/experiment.service.ts:86-98 | The loop writes the changed or else all documents into the map, then clears the stage loading flag |
| ExperimentService.LoadScenario | frontend/src/services/experiment.service.ts:62-128 | After a load and one snapshot of each kind, nothing is loading and the stages list is full iff every stage id is loaded |
| AngularUtils.Run | webapp/src/lib/utils/angular.utils.ts:135-145 | Definition of n seconds of the scheduled interval; `RunCountsDown`, `RunFinishesOnce` and `RunSplit` are about it |
| AngularUtils.TickState | webapp/src/lib/utils/angular.utils.ts:136-145 | With time left a tick decrements the timer and stores it; at zero it counts one onFinish call, removes the key and stops; never negative |
| AngularUtils.RunCountsDown | webapp/src/lib/utils/angular.utils.ts:136-145 | While time remains each second takes one off the timer and stores the new value |
| AngularUtils.RunFinishesOnce | webapp/src/lib/utils/angular.utils.ts:136-145 | A running timer at t >= 0 calls onFinish exactly once after t+1 ticks, stops at 0 and removes its key |
| AngularUtils.RunSplit | webapp/src/lib/utils/angular.utils.ts:135-145 | Running for a+b seconds is running for a, then for b |
| AngularUtils.LocalStorageTimer.constructor | webapp/src/lib/utils/angular.utils.ts:147-153 | Resumes from the stored value leaving storage unchanged; otherwise starts at the default and stores it; the interval is not started |
| AngularUtils.LocalStorageTimer.Tick | webapp/src/lib/utils/angular.utils.ts:136-145 | The new state is `TickState` of the old one; the timer is never set negative; the stored entry stays in sync |
| AngularUtils.LocalStorageTimer.Reset | webapp/src/lib/utils/angular.utils.ts:155-160 | Sets the timer and the stored value to the new start and (re)starts the interval; no other key changes |
| AngularUtils.LocalStorageTimer.Remove | webapp/src/lib/utils/angular.utils.ts:162-165 | Deletes the key and stops the interval; no other key changes |
| AngularUtils.LocalStorageTimer.Start | webapp/src/lib/utils/angular.utils.ts:167-170 | (Re)starts the interval and changes nothing else |
| AngularUtils.ForbiddenValueValidator | webapp/src/lib/utils/angular.utils.ts:225-234 | The validator returns an error carrying the value exactly when the value is the forbidden string, and null otherwise |
| AngularUtils.AssertSignalCast | webapp/src/lib/utils/angular.utils.ts:89-100 | Returns the same signal iff its current value has the kind; otherwise fails, also when the value is undefined |

## Left out

- Document store calls (`onSnapshot`, `doc`, `collection`) are network I/O. Snapshots are values passed to the callbacks, and the handles the store returns are parameters.
- Delivery of snapshots only to active subscriptions is the store's guarantee. The callbacks are plain methods and do not check it.
- The relative order of deliveries across the two subscriptions is not modelled. `stages` tolerates either order by skipping unloaded ids.
- The route parameter is a string parameter. A route without the parameter (`undefined`) is not modelled.
- `experimentName` and the experiment's metadata are not modelled.
- MobX decorators, Angular signals and effects are reactive plumbing. Computed getters are functions of the state. `lazyInitWritable`, `subscribeSignal(s)` and the route-parameter helpers are not modelled.
- The Angular form builders (`buildTextQuestionForm` … `buildQuestionForm`) are thin wrappers over Angular forms and are not modelled.
- `StageGameSchema` and `StageTextConfigSchema` are defined in files that are not part of this model. They are parameters, so every statement holds for any choice of them.
- TypeBox numbers are JavaScript numbers, which here are integers. Fractions are accepted like integers, NaN and infinities are rejected. Neither is represented.
- The key schema of the answer map is taken as "non-empty string", as the schema declares. Whether the validation library enforces `minLength` on record keys is library behaviour outside this model.
- Keys inherited from a JavaScript object's prototype (such as `toString`) are not modelled. The stage map holds only the stages written into it.
- Stage configs keep only the kind and the name. The service reads no other field.
- Local storage holds numbers, not strings. `toString` and `parseInt` are not modelled, nor an entry that is empty or not a number.
- Real time and `setInterval` are not modelled. A firing is a `Tick` call and a scheduled interval is the `running` flag.
- `onFinish` is counted, not run. The effects it may have, and their order relative to the removal of the key, are not modelled.
- The experiment editor, the stage factory, the home service and the UI components are not part of this model.
