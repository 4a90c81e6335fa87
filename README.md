# UNDP-RCO radio-show pipeline: a Dafny model

This project models the data-processing core of the UNDP-RCO pipeline. The pipeline
handles the messages listeners send to radio shows, plus their answers to survey
questions. It is modelled in these steps:

- **Rapid Pro keys.** Each message is assigned to the show it answered. Rapid Pro's keys
  are then copied to the pipeline's own key names.
- **Automatic coding.** This step lists the raw fields, counts empty answers, and picks
  the candidates for inter-coder reliability checks (ICR).
- **Manual codes.** This step writes the TRUE_MISSING, NOT_CODED and CODING_ERROR labels.
- **Analysis files.** Labels are turned into string or 0/1 matrix columns. The step then
  detects withdrawn consent, folds messages into one record per respondent, fixes up the
  folded matrix columns, and overwrites the records of respondents who said STOP.
- **Graph counts.** These are the per-show message and respondent counts and the label
  distributions.
- **Contact lists.** These are the Bossaso and Baidoa contact lists.

A record ("traced data") is a `class TracedData` whose `view` is a map from key to value.
Its one mutator, `AppendData`, adds a layer that shadows older values. A stage that loops
over records and appends to each one is a method that `modifies` the records. Such a
method is proved against a function that says what each record becomes. An error that
aborts a Python run (a KeyError, a TypeError or a failed `assert`) is a `Result` error.

Coding plans are modelled as a raw field with a list of coding configurations, because
every stage that reads a plan uses it that way. The `CodingPlan` constructor in
`src/lib/pipeline_configuration.py` still has the older single-coded-field signature.
`NewCodingPlan` models only its `id_field` default. Where comments or names in the
source suggest one behaviour and the code does another, the model follows the code. For
example, an incompatible SINGLE folding mode in `generate` fails with an AttributeError,
not an AssertionError, because the assertion's message reads `plan.folding_mode`, an
attribute a coding plan does not have (src/analysis_file.py:134).

## Model

| member | source | states |
|---|---|---|
| CodeSchemes.MatrixColumns | src/analysis_file.py:137-139 | one matrix column per scheme code: the analysis key followed by the code's string value, in scheme order |
| CodeSchemes.GetCodeWithId | src/analysis_file.py:32 | `get_code_with_id`: a code carrying the id, and a failure iff no code carries it |
| CodeSchemes.GetCodeWithControlCode | src/apply_manual_codes.py:22 | `get_code_with_control_code`: a code carrying the control code, and a failure iff no code carries it |
| CodeSchemes.GetCodeWithMatchValue | export_undp_rco_contact_lists.py:72-74 | `get_code_with_match_value`: the one code with a match value equal to the text ignoring case; a failure when no code or several codes match |
| CodeSchemes.MatchValueIgnoresCase | export_undp_rco_contact_lists.py:72-74 | lower-casing the looked-up text does not change the result of the match-value lookup |
| CodeSchemes.GetCodeWithIdFindsUnique | src/analysis_file.py:159 | in a scheme with unique code ids, looking up a code's id finds that code |
| PipelineConfiguration.NewCodingPlan | src/lib/pipeline_configuration.py:37-39 | a missing id field defaults to the raw field followed by "_id"; a given one and every other argument are kept |
| PipelineConfiguration.CleanAgeWithRangeFilter | src/lib/pipeline_configuration.py:45-56 | an integer age in [10, 100) becomes its two-digit decimal string; every other cleaner result becomes NC, and NC is returned only then |
| PipelineConfiguration.NatToStringRoundTrip | src/lib/pipeline_configuration.py:51-52 | `str(age)` is a non-empty digit string whose value is the age |
| PipelineConfiguration.NatToStringTwoDigits | src/lib/pipeline_configuration.py:51-52 | an age in [10, 100) prints as exactly two digits |
| PipelineConfiguration.FirstColon | src/lib/pipeline_configuration.py:296 | the scheme ends at the first colon, or the URL has none |
| PipelineConfiguration.GsScheme | src/lib/pipeline_configuration.py:219-221 | a URL has scheme "gs" iff it starts with "gs:" in any letter case |
| PipelineConfiguration.PhoneNumberUuidTableFromDict | src/lib/pipeline_configuration.py:212-221 | the table configuration is built iff both keys are present, the credentials URL is a gs URL and the table name is a string; the fields are the given ones |
| PipelineConfiguration.RapidProKeyRemappingFromDict | src/lib/pipeline_configuration.py:241-252 | a remapping is built iff both keys are strings and any IsActivationMessage is a bool; a missing IsActivationMessage means false |
| PipelineConfiguration.DriveUploadFromDict | src/lib/pipeline_configuration.py:283-297 | built iff all five keys are strings and the credentials URL has scheme "gs"; the fields are the given ones |
| PipelineConfiguration.Elements | src/lib/pipeline_configuration.py:132 | iterating a JSON list yields its items; an empty string or empty object yields none; anything else fails |
| PipelineConfiguration.RemappingsFromList | src/lib/pipeline_configuration.py:131-133 | succeeds iff every item parses; the result then has one remapping per item, in order |
| PipelineConfiguration.ParseDate | src/lib/pipeline_configuration.py:135-136 | a date parses iff it is a string the ISO parser accepts |
| PipelineConfiguration.UrlScheme | src/lib/pipeline_configuration.py:295-296 | `urlparse(url).scheme`: a non-empty scheme is the lower-cased text before the first colon, which starts with a letter and holds only scheme characters; whenever such text exists the scheme is non-empty; the scheme has no capitals |
| PipelineConfiguration.HasRequiredKeys | src/lib/pipeline_configuration.py:121-143 | the eleven keys `from_configuration_dict` reads with `[]` |
| PipelineConfiguration.AcceptableDocument | src/lib/pipeline_configuration.py:155-195 | every check of `validate` and of the nested constructors, as one condition on the document |
| PipelineConfiguration.FromConfigurationDict | src/lib/pipeline_configuration.py:120-195 | the configuration is built iff the document passes every check of `validate`; a missing required key always fails, and a missing "RapidProDomain" (the first key read) fails with a KeyError; each field, including the token URL, the phone table, the recovery URLs, the drive upload and the upload prefix, is taken from its key; remappings keep their order; both credentials URLs have scheme "gs" |
| Consent.ConfigHasStop | src/analysis_file.py:31-36 | SINGLE: the label's code has control code STOP, with an error when the label or its code is missing; MULTIPLE: the STOP matrix column holds "1", with an error when that column is missing |
| Consent.TdHasStopCode | src/analysis_file.py:18-37 | true only at a configuration that finds STOP after every earlier one answered false; false iff every one answers false; an error is exactly the error of the first configuration that fails, every earlier one having answered false |
| Consent.TdHasStopCodeFrame | src/analysis_file.py:18-37 | writing a key that no stop test reads leaves the result unchanged |
| Consent.MarkWithdrawn | src/analysis_file.py:58-63 | succeeds iff the stop test does; a record with STOP gains withdrawn = "true"; any other record is unchanged |
| Consent.MarkWithdrawnIdempotent | src/analysis_file.py:58-63 | marking twice is marking once |
| Consent.MarkOne | src/analysis_file.py:59-63 | one record becomes its marked view, or the error is reported |
| Consent.DetermineConsentWithdrawn | src/analysis_file.py:40-63 | succeeds iff every record's stop test does, and then each record is its marked view; otherwise the error is some record's |
| Consent.StopDict | src/analysis_file.py:85 | STOP under every key of the record and of the additional keys, except the withdrawn key |
| Consent.StoppedView | src/analysis_file.py:84-86 | a withdrawn record keeps withdrawn = "true" and has STOP under every other key, the additional keys included; any other record is unchanged |
| Consent.SetStoppedIdempotent | src/analysis_file.py:66-86 | applying `set_stopped` twice is applying it once |
| Consent.SetStopped | src/analysis_file.py:66-86 | every record becomes its stopped view |
| AnalysisFile.ClassifiedExtends | src/analysis_file.py:121-147 | once a configuration's keys are in the key lists, adding more keys keeps them there |
| AnalysisFile.ClassifiedRawExtends | src/analysis_file.py:141-147 | once a raw field is in the key lists, adding more keys keeps it there |
| AnalysisFile.AddConfigKeysStep | src/analysis_file.py:123-139 | one configuration fails iff its folding mode clashes with its coding mode; otherwise it appends its columns to the export keys and files each under its fold strategy |
| AnalysisFile.AddRawKeyStep | src/analysis_file.py:141-147 | the raw field is exported and filed as concatenated or equal, and any other folding mode fails |
| AnalysisFile.ExtendsTransitive | src/analysis_file.py:121-147 | extending the key lists is transitive |
| AnalysisFile.AddConfigsKeysOk | src/analysis_file.py:122-139 | a plan's configurations succeed iff each is compatible; a failure is the error of the first incompatible configuration: an AttributeError (TypeError) for a SINGLE one, an AssertionError for a MULTIPLE one |
| AnalysisFile.AddConfigsKeysExport | src/analysis_file.py:122-139 | a plan's configurations append exactly their columns, in order, and keep the lists balanced |
| AnalysisFile.AddConfigsKeysClassified | src/analysis_file.py:122-139 | every configuration of the plan ends up filed |
| AnalysisFile.KeyListsForOk | src/analysis_file.py:102-147 | the key lists are built iff every plan is compatible; a failure is the error of the first incompatible plan, at its first incompatible configuration or, failing that, its raw folding mode (an AssertionError) |
| AnalysisFile.KeyListsForLast | src/analysis_file.py:121-147 | the key lists for all plans are those for the earlier plans, extended by the last plan |
| AnalysisFile.KeyListsForExportStep | src/analysis_file.py:121-147 | each plan appends its own columns to the export keys |
| AnalysisFile.KeyListsForExport | src/analysis_file.py:102-147 | the export keys are uid and consent_withdrawn, then each plan's columns in plan order |
| AnalysisFile.KeyListsForBalanced | src/analysis_file.py:102-147 | every exported column, consent_withdrawn included, has exactly one fold strategy |
| AnalysisFile.KeyListsForClassifiedStep | src/analysis_file.py:121-147 | the last plan's configurations and raw field are filed, and the earlier lists are extended |
| AnalysisFile.KeyListsForClassified | src/analysis_file.py:121-139 | every configuration of every plan is filed under its fold strategy |
| AnalysisFile.KeyListsForClassifiedRaw | src/analysis_file.py:141-147 | every plan's raw field is filed under its fold strategy |
| AnalysisFile.BuildKeyLists | src/analysis_file.py:102-147 | the key-list loops compute the key lists |
| AnalysisFile.AppendMatrixColumns | src/analysis_file.py:137-139 | the loop over a MULTIPLE configuration's codes appends exactly its matrix columns, in code order, to both the export and the matrix keys |
| AnalysisFile.FirstFailingPlan | src/analysis_file.py:102-147 | the first incompatible plan decides the error of the key-list build |
| AnalysisFile.FirstIncompatible | src/analysis_file.py:122-136 | a configuration the build loops stop at, after only compatible items, gives the build its error |
| AnalysisFile.FirstIncompatibleRaw | src/analysis_file.py:141-147 | a raw folding mode the build loops stop at, after only compatible items, makes the build an AssertionError |
| AnalysisFile.ConfigErrorFails | src/analysis_file.py:133-136 | one incompatible configuration anywhere makes building the key lists fail; when every item before it is compatible, the failure is its own error (TypeError for SINGLE, AssertionError for MULTIPLE) |
| AnalysisFile.LabelIds | src/analysis_file.py:166 | a missing coded field has no labels; a label list gives its code ids |
| AnalysisFile.SetMatrixOnesOk | src/analysis_file.py:166-168 | marking labels succeeds iff every label's code id is in the scheme |
| AnalysisFile.SetMatrixOnesSpec | src/analysis_file.py:166-168 | exactly the labelled columns are set to "1"; every other entry is kept |
| AnalysisFile.LabelledColumnsAreMatrixColumns | src/analysis_file.py:162-168 | every labelled column is one of the configuration's matrix columns |
| AnalysisFile.SingleColumnSpec | src/analysis_file.py:157-159 | SINGLE: succeeds iff the label exists and its code is in the scheme; adds just the analysis key, holding that code's string value |
| AnalysisFile.MultipleColumnsSpec | src/analysis_file.py:160-172 | MULTIPLE: succeeds iff every label's code is in the scheme; adds every matrix column, "1" for labelled codes and "0" for the rest unless already set |
| AnalysisFile.AbsentLabelsGiveZeros | src/analysis_file.py:166-172 | a record without the coded field gets "0" in every new matrix column |
| AnalysisFile.ConfigColumnsKeys | src/analysis_file.py:151-172 | a configuration writes only its own columns |
| AnalysisFile.ConfigColumnsLocal | src/analysis_file.py:151-172 | a configuration's outcome does not depend on the dict built so far when its columns are new |
| AnalysisFile.AnalysisDictKeys | src/analysis_file.py:150-172 | the analysis dict has exactly the columns of all configurations |
| AnalysisFile.AnalysisDictOk | src/analysis_file.py:150-172 | the analysis dict is built iff every configuration succeeds on its own |
| AnalysisFile.LastColumnFresh | src/analysis_file.py:151-172 | with disjoint columns, the last configuration's columns are new |
| AnalysisFile.AnalysisDictIndependent | src/analysis_file.py:150-172 | with disjoint columns, each column holds what its configuration computes alone |
| AnalysisFile.ConfigsColumnsMembers | src/analysis_file.py:121-139 | a column is exported iff some configuration contributes it |
| AnalysisFile.AllConfigurationsPrefix | src/analysis_file.py:152-153 | the configurations of the earlier plans followed by one plan's are a prefix of all configurations |
| AnalysisFile.MarkLabels | src/analysis_file.py:166-168 | the label loop computes the marked dict |
| AnalysisFile.FillZeros | src/analysis_file.py:170-172 | the zero-fill loop computes the filled dict |
| AnalysisFile.AddOneConfig | src/analysis_file.py:154-172 | one configuration's step computes its columns |
| AnalysisFile.ColumnsAppend | src/analysis_file.py:152-172 | running two runs of configurations is running their concatenation |
| AnalysisFile.AddPlanColumns | src/analysis_file.py:153-172 | the loop over a plan's configurations computes their columns |
| AnalysisFile.BuildAnalysisDict | src/analysis_file.py:151-172 | the per-record loop computes the analysis dict of all configurations |
| AnalysisFile.ContainsNonNcKey | src/analysis_file.py:207-211 | true iff some matrix key that starts with the configuration's analysis key and does not end with NC holds "1" (columns of other configurations whose key extends that prefix count too); an error only when there are matrix keys and no analysis key |
| AnalysisFile.NaColumnIsNotNcColumn | src/analysis_file.py:204-213 | the NA and NC columns of one key differ, and the NC column ends with NC |
| AnalysisFile.FixupStepSpec | src/analysis_file.py:197-214 | an answered record gets NA = "0" and an unanswered one keeps its NA value; a record without a non-NC "1" gets NC = "1" and one with it keeps its NC value; no other column changes |
| AnalysisFile.FixupConfigsSpec | src/analysis_file.py:198-214 | a plan's fix-ups succeed iff each can run; a failure is a TypeError; only the fix-up columns change |
| AnalysisFile.FixupRecordSpec | src/analysis_file.py:196-214 | a record's fix-ups succeed iff each can run; a failure is a TypeError; columns outside every plan's fix-up columns are unchanged |
| AnalysisFile.ContainsNonNc | src/analysis_file.py:207-211 | the flag loop computes the flag |
| AnalysisFile.FixupStepOn | src/analysis_file.py:202-214 | one fix-up on a record appends its layers, or fails |
| AnalysisFile.FixupOne | src/analysis_file.py:197-214 | all fix-ups on a record, or failure |
| AnalysisFile.Prepared | src/analysis_file.py:97-180 | the prepared records, one per input, in order |
| AnalysisFile.PreparedConsent | src/analysis_file.py:96-99 | after preparation, consent_withdrawn is "true" iff the materialised record has a STOP code, and "false" otherwise |
| AnalysisFile.SetConsentDefault | src/analysis_file.py:96-99 | every record gets consent_withdrawn = "false" |
| AnalysisFile.Materialise | src/analysis_file.py:150-174 | succeeds iff every record's analysis dict can be built, and then appends it to each record |
| AnalysisFile.FixupAll | src/analysis_file.py:196-214 | succeeds iff every folded record can be fixed up, and then fixes each one |
| AnalysisFile.MaterialiseAndMark | src/analysis_file.py:150-180 | started on records whose consent was defaulted, the two passes succeed iff every record can be prepared; a failure is the error of some record's preparation; on success every record is its prepared view |
| AnalysisFile.FixupAndStop | src/analysis_file.py:193-217 | fails iff some folded record cannot be fixed up; otherwise every folded record is fixed up and then stopped, and every message record that is not itself a folded record is stopped; a message record returned by the fold is fixed up too, and stopping it twice changes nothing more |
| AnalysisFile.FoldedRecords | src/analysis_file.py:187-191 | the fold's result as distinct objects: a message record the fold returned is that same object, a merged view is a new object holding it |
| AnalysisFile.FinishFolded | src/analysis_file.py:187-217 | fails iff some record of the fold's result cannot be fixed up; otherwise each folded record is its kept message view or merged view, fixed up and then stopped, and each message record the fold did not return is stopped |
| AnalysisFile.Generate | src/analysis_file.py:91-227 | succeeds iff the key lists can be built, every record can be prepared, the fold accepts the prepared views and every record of its result can be fixed up; fails with the key lists' error when they cannot be built; on success the headers are the export keys, each message record the fold did not return is prepared and then stopped, a message record the fold returned is the same object as that folded record, merged records are new, and each folded record is its prepared or merged view fixed up and then stopped |
| ApplyManualCodes.ControlLabel | src/apply_manual_codes.py:73-77 | the label of the scheme's code with the control code (a list for MULTIPLE); a KeyError iff there is no such code |
| ApplyManualCodes.WrittenFieldsMembers | src/apply_manual_codes.py:72-84 | a field is written iff some configuration codes into it and it is not excluded |
| ApplyManualCodes.WriteLabelsOk | src/apply_manual_codes.py:72-84 | writing labels succeeds iff every written configuration's scheme has the control code |
| ApplyManualCodes.WriteLabelsFrame | src/apply_manual_codes.py:72-84 | fields that are not written keep their value |
| ApplyManualCodes.WriteLabelsValue | src/apply_manual_codes.py:72-84 | with one configuration per coded field, each written field holds its control label |
| ApplyManualCodes.UniquePrefix | src/apply_manual_codes.py:19 | a prefix of plans with unique coded fields has unique coded fields |
| ApplyManualCodes.PassDictOk | src/apply_manual_codes.py:68-99 | a pass's dict is built iff every plan decides and every label it must write exists |
| ApplyManualCodes.PassDictFrame | src/apply_manual_codes.py:68-99 | a field no firing plan codes into is not in the dict |
| ApplyManualCodes.PassDictKeys | src/apply_manual_codes.py:68-99 | every field in the dict is coded by a firing plan and is not excluded |
| ApplyManualCodes.PassDictValue | src/apply_manual_codes.py:68-99 | each field of a firing plan holds that plan's control label |
| ApplyManualCodes.MissingPassOk | src/apply_manual_codes.py:68-85 | the missing pass succeeds iff NA exists for unanswered plans and NC exists for empty answers |
| ApplyManualCodes.MissingAnswerGetsTrueMissing | src/apply_manual_codes.py:71-77 | an unanswered plan's coded fields get TRUE_MISSING |
| ApplyManualCodes.EmptyAnswerGetsNotCoded | src/apply_manual_codes.py:78-84 | an empty answer's coded fields get NOT_CODED |
| ApplyManualCodes.AnsweredPlanUnchanged | src/apply_manual_codes.py:70-85 | an answered plan's coded fields are untouched |
| ApplyManualCodes.MissingPassChangesOnlyUnanswered | src/apply_manual_codes.py:68-85 | any field the missing pass changes belongs to an unanswered or empty plan |
| ApplyManualCodes.NoisePassFrame | src/apply_manual_codes.py:88-99 | a non-noise record is unchanged; existing keys are never overwritten; new keys come from RQA configurations of noise records |
| ApplyManualCodes.NoiseGetsNotCoded | src/apply_manual_codes.py:89-98 | a noise record's uncoded RQA fields get NOT_CODED |
| ApplyManualCodes.NoisePassOk | src/apply_manual_codes.py:88-99 | the noise pass succeeds iff NC exists for every field it must fill |
| ApplyManualCodes.CodingErrorOverrides | src/apply_manual_codes.py:16-42 | a plan whose WS-correct label is the coding error gets CODING_ERROR in all its coded fields |
| ApplyManualCodes.CodingErrorLeavesOthers | src/apply_manual_codes.py:17-42 | any other plan's coded fields are unchanged |
| ApplyManualCodes.CodingErrorPassOk | src/apply_manual_codes.py:16-42 | the coding-error pass succeeds iff every WS-correct value is a label, the WS scheme has a coding-error code, and the flagged plans' schemes have CE |
| ApplyManualCodes.CodingErrorIsFinal | src/apply_manual_codes.py:44-108 | after the whole stage, a plan flagged as a coding error holds CODING_ERROR, whatever the earlier passes wrote |
| ApplyManualCodes.MissingLabelsSurviveNoise | src/apply_manual_codes.py:66-99 | a TRUE_MISSING label written by the missing pass survives the noise pass |
| ApplyManualCodes.BuildLabels | src/apply_manual_codes.py:72-84 | the label loop computes the labels |
| ApplyManualCodes.BuildPassDict | src/apply_manual_codes.py:69-85 | the plan loop computes the pass's dict |
| ApplyManualCodes.RunPass | src/apply_manual_codes.py:68-99 | succeeds iff every record's pass does, and then each record is its pass view |
| ApplyManualCodes.AppendLayers | src/apply_manual_codes.py:47-64 | each record gains the layer computed from it |
| ApplyManualCodes.ApplyManualCodes | src/apply_manual_codes.py:44-108 | succeeds iff every record's four phases do, and then each record is its phase-by-phase view |
| TranslateRapidProKeys.ShowDictSpec | src/translate_rapid_pro_keys.py:26-36 | succeeds iff at most one activation key holds a value, and fails with an AssertionError otherwise; the dict is empty when none does and is that show's pair when one does |
| TranslateRapidProKeys.BuildShowDict | src/translate_rapid_pro_keys.py:27-36 | the remapping loop computes the show dict |
| TranslateRapidProKeys.SetShowIds | src/translate_rapid_pro_keys.py:14-38 | succeeds iff every record has at most one active show, and then each record gains its show dict |
| TranslateRapidProKeys.ParseTime | src/translate_rapid_pro_keys.py:77 | a time parses iff it is a string the ISO parser accepts |
| TranslateRapidProKeys.TimeRemapSpec | src/translate_rapid_pro_keys.py:67-87 | records without the time key are unchanged; records in [start, end) get the new show, and the adjusted time when one is given; other records are unchanged |
| TranslateRapidProKeys.CountRemapped | src/translate_rapid_pro_keys.py:75-78 | the count never exceeds the number of records |
| TranslateRapidProKeys.RemapOne | src/translate_rapid_pro_keys.py:77-87 | one record is remapped, or the parse error is reported |
| TranslateRapidProKeys.RemapRadioShowByTimeRange | src/translate_rapid_pro_keys.py:41-89 | succeeds iff every time parses; returns the number of records in range, and each record is its remapped view |
| TranslateRapidProKeys.RemapDictKeys | src/translate_rapid_pro_keys.py:122-130 | a pipeline key is written iff some non-activation remapping has a value for it, and never when the record already has that key |
| TranslateRapidProKeys.RemapDictValue | src/translate_rapid_pro_keys.py:126-130 | the last eligible remapping for a key supplies its value |
| TranslateRapidProKeys.KeyNamesNeverOverwrite | src/translate_rapid_pro_keys.py:129 | remapping key names never changes an existing key |
| TranslateRapidProKeys.BuildRemapDict | src/translate_rapid_pro_keys.py:120-130 | the loop computes the remap dict |
| TranslateRapidProKeys.RemapKeyNames | src/translate_rapid_pro_keys.py:108-132 | each record gains its remap dict |
| TranslateRapidProKeys.RawKeyView | src/translate_rapid_pro_keys.py:149-152 | a record with a show key gains the message under that show's raw field; it is a KeyError without rqa_message; other records are unchanged |
| TranslateRapidProKeys.SetRqaRawKeysFromShowIds | src/translate_rapid_pro_keys.py:135-152 | succeeds iff every record's raw-key view does, and then applies it |
| TranslateRapidProKeys.TranslateShowMessage | src/translate_rapid_pro_keys.py:155-177 | a message answering exactly one show ends with its text under that show's pipeline key |
| TranslateRapidProKeys.TranslateTwoShowsFails | src/translate_rapid_pro_keys.py:33-35 | a message answering two shows aborts the stage with an AssertionError |
| TranslateRapidProKeys.TranslateRapidProKeys | src/translate_rapid_pro_keys.py:155-177 | succeeds iff every record translates, and then each record is its translated view (show ids, then key names, then raw keys) |
| AutoCodeShowMessages.FirstIndex | src/auto_code_show_messages.py:74-77 | the position of a field's first occurrence |
| AutoCodeShowMessages.DedupMembers | src/auto_code_show_messages.py:74-77 | the deduplicated list has exactly the fields of the input |
| AutoCodeShowMessages.DedupDistinct | src/auto_code_show_messages.py:74-77 | the deduplicated list has no repeats |
| AutoCodeShowMessages.DedupOrder | src/auto_code_show_messages.py:74-77 | the deduplicated list keeps the order of first occurrence |
| AutoCodeShowMessages.RqaKeys | src/auto_code_show_messages.py:16-18 | one raw field per RQA plan, in plan order |
| AutoCodeShowMessages.UniqueRawFields | src/auto_code_show_messages.py:82-85 | the raw fields without repeats, in first-occurrence order, exactly those of the plans |
| AutoCodeShowMessages.EmptyAtMostTotal | src/auto_code_show_messages.py:26-38 | empty answers are at most the answers, which are at most the records |
| AutoCodeShowMessages.EmptyStringStats | src/auto_code_show_messages.py:28-36 | counts the records that have the field, and those where it is "" |
| AutoCodeShowMessages.LogEmptyStringStats | src/auto_code_show_messages.py:26-38 | one pair of counts per raw field, in order |
| AutoCodeShowMessages.Uid | src/auto_code_show_messages.py:88 | the uid is read iff it is present and hashable |
| AutoCodeShowMessages.SurveyMapKeys | src/auto_code_show_messages.py:86-88 | the survey dict is built iff every record has a usable uid, and its keys are exactly those uids |
| AutoCodeShowMessages.SurveyMapLast | src/auto_code_show_messages.py:87-88 | each uid maps to its last record |
| AutoCodeShowMessages.SurveyData | src/auto_code_show_messages.py:86-88 | the loop computes the survey dict |
| AutoCodeShowMessages.ContainingMembers | src/auto_code_show_messages.py:105-108 | exactly the records with the raw field are kept, as many as have it |
| AutoCodeShowMessages.ContainingAppend | src/auto_code_show_messages.py:105-108 | the selection distributes over concatenation, so order is kept |
| AutoCodeShowMessages.RqaMessages | src/auto_code_show_messages.py:104-108 | the loop computes the ICR candidates |
| AnalysisGraphs.SelectPlans | generate_analysis_graphs.py:37-41 | bossaso selects the Bossaso plans, baidoa the Baidoa plans, and any other location is an AssertionError |
| AnalysisGraphs.ZeroCounters | generate_analysis_graphs.py:59-61 | one zero counter per distinct value, keys in first-occurrence order |
| AnalysisGraphs.CountRecord | generate_analysis_graphs.py:64-66 | a record adds the plan multiplicity to each show it answered with consent; a KeyError when an answering record lacks consent_withdrawn |
| AnalysisGraphs.CountPerShow | generate_analysis_graphs.py:57-88 | each show's counter is the number of consenting records that answered it, times the plans sharing its raw field; a KeyError iff some answering record lacks consent_withdrawn |
| AnalysisGraphs.LabelCounts | generate_analysis_graphs.py:108-113 | one counter per code string value; each counts the individuals with that label, and together they sum to the number of individuals; a KeyError when an individual lacks the key or has a label outside the scheme |
| AnalysisGraphs.SumCountsIncrement | generate_analysis_graphs.py:113 | adding one to one of distinct counters adds one to their sum |
| ContactLists.PlaceOf | export_undp_rco_contact_lists.py:68-75 | STOP is skipped; the Bossaso code sends a record to Bossaso, and otherwise the Baidoa code sends it to Baidoa; errors for a missing district, a non-label district, or a scheme where the match value picks out no single code |
| ContactLists.PartitionSpec | export_adss_contact_lists.py:53-60 | the partition succeeds iff every record can be placed and each placed record has a uid; a uid is in a district's set iff some record with it was placed there |
| ContactLists.BothDistricts | export_adss_contact_lists.py:57-60 | a uid with a Bossaso record and a Baidoa record is in both sets |
| ContactLists.StopRecordsIgnored | export_undp_rco_contact_lists.py:69-70 | a STOP record changes neither set |
| ContactLists.PartitionContacts | export_undp_rco_contact_lists.py:64-75 | the set-building loop computes the partition |
| ContactLists.PhoneNumbers | export_adss_contact_lists.py:65-66 | one "+"-prefixed number per uid, in some order over distinct uids; a KeyError iff some uid is not in the table |
| ContactLists.PhoneBatch | export_undp_rco_contact_lists.py:80 | the batch holds exactly the uids of both sets, with their numbers; it fails iff one is missing |
| ContactLists.NumbersThroughBatch | export_undp_rco_contact_lists.py:80-82 | numbers formatted from the batch are the numbers of the full table |
| ContactLists.ExportUndpRcoContactLists | export_undp_rco_contact_lists.py:64-82 | the partition's error, or one "+"-prefixed number per uid of each set; lookups fail iff some uid has no number |
| ContactLists.ExportAdssContactLists | export_adss_contact_lists.py:49-66 | the same lists from the local table; a missing Bossaso uid is reported before Baidoa is looked up |

## Left out

- Logging, argument parsing, file and CSV/JSON I/O, chart rendering, Google Cloud and
  Firestore access, and `sys.setrecursionlimit` are not modelled. The phone table is a
  map parameter, and the time parser and formatter are function parameters.
- Provenance metadata and timestamps of `append_data` layers are not modelled. A label
  is modelled only by its code id.
- The fold (`FoldTracedData.fold_iterable_of_traced_data`) is a foreign library call.
  `AnalysisFile.Generate` takes it as a function parameter that reports each record of its
  result either as one of the message records it was given, returned as the same object,
  or as a new merged view. The model assumes of the library only that it returns given
  records at most once each (`AnalysisFile.ValidFoldOuts`); how it merges is not modelled.
  As in the source, the fold is given the message records themselves: the copies made at
  src/analysis_file.py:183-185 are never used, so a message record the fold returns is
  fixed up and stopped as a folded record.
- Coda import (src/apply_manual_codes.py:47-64) and the plans' code imputation functions
  are foreign. They are per-record layer functions given to `ApplyManualCodes.ApplyManualCodes`.
- `MessageFilters` (test, empty, time-range and noise filters), Coda export,
  `compute_message_ids`, ICR sampling with `random.Random` and `ICRTools` are foreign.
  `AutoCodeShowMessages.RqaMessages` takes the noise-filtered records as given.
- `remap_radio_shows` has no body in the source, so the translation stage does not call
  the time-range remap.
- src/lib/code_schemes.py only loads scheme files, and the lookups belong to a library
  that is not part of this model. A scheme is modelled as its list of codes. The id and
  control-code lookups return the first carrying code, which is the only one in a scheme
  with unique ids and control codes (`ValidScheme`). A missing code in `get_code_with_id`
  or `get_code_with_control_code` is modelled as a KeyError carrying the looked-up id or
  control code.
- CodeSchemes.GetCodeWithMatchValue ignores ASCII letter case only; Unicode case folding
  is not modelled. A lookup that matches several codes fails like one that matches none:
  the exporters raise the same KeyError for the looked-up text in both cases.
- After a pass fails, the model says nothing about which records were already appended
  to. Every pass requires its records to be distinct objects (no aliasing in the list).
- PipelineConfiguration.UrlScheme models only the scheme part of `urlparse`. It does not
  model the netloc, path, query or fragment, or the splitting rules for them. The older
  rule that keeps "name:digits" unsplit as a port number is not modelled. Nor are URLs
  holding a tab, CR or LF, or starting with a control character or a space: later Python
  patch releases remove or strip those characters before splitting, which can change the
  scheme.
- Times are microseconds since `datetime.min` in UTC. A time exactly at `datetime.max` is
  outside the default range, as in the source. Naive and aware datetimes are not told
  apart.
- TranslateRapidProKeys.RawKeyView: a non-string `show_pipeline_key` value is modelled as
  a TypeError. In the source it would be used as a key.
- AnalysisGraphs.LabelCounts: for a label that is not a string, the KeyError carries the
  analysis key rather than the value; in the source a dict value raises a TypeError.
- The survey empty-string statistics run over the survey dict's values. The model runs
  `LogEmptyStringStats` on a sequence; the dict's value order is not modelled.
- The loops over survey configurations in generate_analysis_graphs.py only render charts.
  `AnalysisGraphs.LabelCounts` models one configuration's counts.
- ApplyManualCodes.WriteLabelsValue, ApplyManualCodes.PassDictValue, ApplyManualCodes.MissingAnswerGetsTrueMissing,
  ApplyManualCodes.EmptyAnswerGetsNotCoded, ApplyManualCodes.NoiseGetsNotCoded,
  ApplyManualCodes.CodingErrorOverrides and ApplyManualCodes.CodingErrorIsFinal assume one
  configuration per coded field (`UniqueCodedFields`). Without that, the last
  configuration's label wins.
- ApplyManualCodes.AnsweredPlanUnchanged, ApplyManualCodes.CodingErrorLeavesOthers: these
  also assume unique coded fields, since another plan could share the field.
- ContactLists.PhoneNumbers: the KeyError of a missing uid carries the uid only when it is
  a string. The iteration order of a Python set is unspecified, so the lists are stated up
  to order.
- ContactLists.ExportUndpRcoContactLists: how the Firestore batch lookup treats a uid it
  does not know is not part of this model; here it fails.
- ContactLists.Partition: a uid may be any stored `Value` here, labels included. In the
  source, adding an unhashable uid (a label dict or a list) to a set raises a TypeError.
