/** The pipeline's configuration: coding plans (which raw field is coded into which coded
    fields, under which coding and folding modes), the age cleaner with its range filter,
    and the run configuration read from a JSON document and checked by `validate`. */
module PipelineConfiguration {
  import opened Wrappers
  import opened CodeSchemes

  // ---------------------------------------------------------------------------------
  // Coding plans

  /** SINGLE: one label per record; MULTIPLE: a list of labels per record. */
  datatype CodingMode = Single | Multiple

  /** How a key's values are combined when per-message records fold into one
      per-respondent record. */
  datatype FoldingMode = AssertEqual | YesNoAmb | Concatenate | Matrix

  /** Binds one code scheme to one coded field of a record. */
  datatype CodingConfiguration = CodingConfiguration(
    codingMode: CodingMode,
    codeScheme: Scheme,
    codedField: string,
    analysisFileKey: Option<string>,
    foldingMode: FoldingMode)

  /** One raw input field with the coding configurations derived from it. A plan's code
      imputation function is supplied to the stages that run it; here the plan only says
      whether it has one. */
  datatype CodingPlan = CodingPlan(
    rawField: string,
    codingConfigurations: seq<CodingConfiguration>,
    codaFilename: string,
    icrFilename: Option<string>,
    timeField: Option<string>,
    runIdField: Option<string>,
    idField: string,
    analysisFileKey: Option<string>,
    rawFieldFoldingMode: FoldingMode,
    hasCodeImputation: bool)

  /** `CodingPlan.__init__`: when no id field is given it is the raw field followed by
      "_id"; a given one is kept. */
  function NewCodingPlan(rawField: string, codingConfigurations: seq<CodingConfiguration>,
                         codaFilename: string, icrFilename: Option<string>,
                         timeField: Option<string>, runIdField: Option<string>,
                         idField: Option<string>, analysisFileKey: Option<string>,
                         rawFieldFoldingMode: FoldingMode, hasCodeImputation: bool): (p: CodingPlan)
    ensures idField.None? ==> p.idField == rawField + "_id"
    ensures idField.Some? ==> p.idField == idField.value
    ensures p.rawField == rawField && p.codingConfigurations == codingConfigurations
    ensures p.codaFilename == codaFilename && p.icrFilename == icrFilename
    ensures p.timeField == timeField && p.runIdField == runIdField
    ensures p.analysisFileKey == analysisFileKey
    ensures p.rawFieldFoldingMode == rawFieldFoldingMode && p.hasCodeImputation == hasCodeImputation
  {
    var id := if idField.None? then rawField + "_id" else idField.value;
    CodingPlan(rawField, codingConfigurations, codaFilename, icrFilename, timeField, runIdField,
               id, analysisFileKey, rawFieldFoldingMode, hasCodeImputation)
  }

  /** The coding configurations of all plans, plan by plan, as nested loops visit them. */
  function AllConfigurations(plans: seq<CodingPlan>): seq<CodingConfiguration>
  {
    if plans == [] then []
    else AllConfigurations(plans[..|plans| - 1]) + plans[|plans| - 1].codingConfigurations
  }

  /** How an f-string renders an optional analysis key: None prints as "None". */
  function KeyText(key: Option<string>): string {
    if key.None? then "None" else key.value
  }

  // ---------------------------------------------------------------------------------
  // Age cleaning

  /** What the demographic age cleaner returns: an int, or something else (a control code). */
  datatype CleanedAge = IntAge(n: int) | NotAnInt

  function DigitChar(d: nat): (c: char)
    requires d < 10
  {
    "0123456789"[d]
  }

  predicate IsDigit(c: char) {
    '0' <= c <= '9'
  }

  /** Python's `str(n)` for a non-negative int. */
  function NatToString(n: nat): (s: string)
    decreases n
  {
    if n < 10 then [DigitChar(n)] else NatToString(n / 10) + [DigitChar(n % 10)]
  }

  /** The number a non-empty string of decimal digits denotes. */
  function DigitsValue(s: string): nat
    requires forall i :: 0 <= i < |s| ==> IsDigit(s[i])
    decreases |s|
  {
    if s == [] then 0
    else
      assert IsDigit(s[|s| - 1]);
      DigitsValue(s[..|s| - 1]) * 10 + (s[|s| - 1] as int - '0' as int)
  }

  /** `str` is inverted by reading the digits back, and never yields an empty string. */
  lemma {:induction false} NatToStringRoundTrip(n: nat)
    ensures 0 < |NatToString(n)|
    ensures forall i :: 0 <= i < |NatToString(n)| ==> IsDigit(NatToString(n)[i])
    ensures DigitsValue(NatToString(n)) == n
  {
    var s := NatToString(n);
    if n >= 10 {
      NatToStringRoundTrip(n / 10);
      var p := NatToString(n / 10);
      assert s == p + [DigitChar(n % 10)];
      assert s[..|s| - 1] == p;
    }
  }

  /** Two-digit numbers print as two characters. */
  lemma {:induction false} NatToStringTwoDigits(n: nat)
    requires 10 <= n < 100
    ensures |NatToString(n)| == 2
  {
    assert NatToString(n / 10) == [DigitChar(n / 10)];
  }

  /** `PipelineConfiguration.clean_age_with_range_filter`: the cleaned age as a decimal
      string when it is an int with 10 <= age < 100, and NOT_CODED otherwise (also when the
      cleaner did not produce an int). */
  function CleanAgeWithRangeFilter(text: string, cleanAge: string -> CleanedAge): (r: string)
    ensures cleanAge(text).IntAge? && 10 <= cleanAge(text).n < 100 ==>
              |r| == 2 && IsDigit(r[0]) && IsDigit(r[1]) && DigitsValue(r) == cleanAge(text).n
    ensures !(cleanAge(text).IntAge? && 10 <= cleanAge(text).n < 100) ==> r == NOT_CODED
    ensures r == NOT_CODED <==> !(cleanAge(text).IntAge? && 10 <= cleanAge(text).n < 100)
  {
    var age := cleanAge(text);
    if age.IntAge? && 10 <= age.n < 100 then
      NatToStringRoundTrip(age.n);
      NatToStringTwoDigits(age.n);
      NatToString(age.n)
    else
      NOT_CODED
  }

  // ---------------------------------------------------------------------------------
  // The run configuration and its checks

  /** A JSON value of the configuration document. */
  datatype Json =
    | JNull
    | JBool(b: bool)
    | JNum(n: int)
    | JStr(s: string)
    | JList(items: seq<Json>)
    | JObject(fields: map<string, Json>)

  /** `validators.validate_list` followed by `validate_string` on every element. */
  predicate IsStringList(j: Json) {
    j.JList? && forall i :: 0 <= i < |j.items| ==> j.items[i].JStr?
  }

  function Strings(j: Json): (r: seq<string>)
    requires IsStringList(j)
    ensures |r| == |j.items| && forall i :: 0 <= i < |r| ==> r[i] == j.items[i].s
  {
    seq(|j.items|, i requires 0 <= i < |j.items| && IsStringList(j) => j.items[i].s)
  }

  predicate IsAsciiLetter(c: char) {
    'a' <= c <= 'z' || 'A' <= c <= 'Z'
  }

  /** The characters `urllib.parse` accepts in a scheme. */
  predicate IsSchemeChar(c: char) {
    IsAsciiLetter(c) || IsDigit(c) || c == '+' || c == '-' || c == '.'
  }

  /** The index of the first ':' in `s`, or |s| when there is none. */
  function FirstColon(s: string): (i: nat)
    ensures i <= |s|
    ensures i < |s| ==> s[i] == ':'
    ensures forall j :: 0 <= j < i ==> s[j] != ':'
  {
    if s == [] then 0 else if s[0] == ':' then 0 else 1 + FirstColon(s[1..])
  }

  /** `urlparse(url).scheme`: the text before the first ':' in lower case, when that text
      is non-empty, starts with a letter and holds only scheme characters; "" otherwise. */
  function UrlScheme(url: string): (scheme: string)
    ensures scheme != "" ==> |scheme| < |url| && url[|scheme|] == ':' && LowerAscii(url[..|scheme|]) == scheme
    ensures scheme != "" ==> IsAsciiLetter(url[0]) && forall j :: 0 <= j < |scheme| ==> url[j] != ':' && IsSchemeChar(url[j])
    ensures (exists i :: 0 < i < |url| && url[i] == ':' && IsAsciiLetter(url[0])
                         && forall j :: 0 <= j < i ==> url[j] != ':' && IsSchemeChar(url[j])) ==> scheme != ""
    ensures forall j :: 0 <= j < |scheme| ==> !('A' <= scheme[j] <= 'Z')
  {
    var i := FirstColon(url);
    if 0 < i < |url| && IsAsciiLetter(url[0]) && forall j :: 0 <= j < i ==> IsSchemeChar(url[j])
    then LowerAscii(url[..i])
    else ""
  }

  /** A URL has the "gs" scheme exactly when it starts with "gs:" in any letter case. */
  lemma GsScheme(url: string)
    ensures UrlScheme(url) == "gs" <==>
              |url| >= 3 && (url[0] == 'g' || url[0] == 'G') && (url[1] == 's' || url[1] == 'S') && url[2] == ':'
  {
    var i := FirstColon(url);
    if UrlScheme(url) == "gs" {
      assert |LowerAscii(url[..i])| == 2;
      assert LowerAscii(url[..i])[0] == 'g' && LowerAscii(url[..i])[1] == 's';
    }
    if |url| >= 3 && (url[0] == 'g' || url[0] == 'G') && (url[1] == 's' || url[1] == 'S') && url[2] == ':' {
      assert i == 2;
      assert LowerAscii(url[..i]) == "gs";
    }
  }

  /** `validators.validate_url(url, scheme="gs")`. */
  predicate IsGsUrl(j: Json) {
    j.JStr? && UrlScheme(j.s) == "gs"
  }

  /** `configuration_dict[key]` on a JSON value that must be an object. */
  function Field(j: Json, key: string): (r: Result<Json>)
    ensures r.Ok? <==> j.JObject? && key in j.fields
    ensures r.Ok? ==> r.value == j.fields[key]
  {
    if !j.JObject? then Err(TypeError)
    else if key !in j.fields then Err(KeyError(key))
    else Ok(j.fields[key])
  }

  datatype PhoneNumberUuidTable = PhoneNumberUuidTable(firebaseCredentialsFileUrl: string, tableName: string)

  /** `PhoneNumberUuidTable.from_configuration_dict` with the constructor's `validate`. */
  function PhoneNumberUuidTableFromDict(j: Json): (r: Result<PhoneNumberUuidTable>)
    ensures r.Ok? <==> j.JObject? && "FirebaseCredentialsFileURL" in j.fields && "TableName" in j.fields
                       && IsGsUrl(j.fields["FirebaseCredentialsFileURL"]) && j.fields["TableName"].JStr?
    ensures r.Ok? ==> r.value == PhoneNumberUuidTable(j.fields["FirebaseCredentialsFileURL"].s,
                                                     j.fields["TableName"].s)
  {
    var url :- Field(j, "FirebaseCredentialsFileURL");
    var name :- Field(j, "TableName");
    if IsGsUrl(url) && name.JStr? then Ok(PhoneNumberUuidTable(url.s, name.s)) else Err(AssertionError)
  }

  datatype RapidProKeyRemapping = RapidProKeyRemapping(isActivationMessage: bool, rapidProKey: string, pipelineKey: string)

  /** `RapidProKeyRemapping.from_configuration_dict` with the constructor's `validate`:
      "IsActivationMessage" defaults to false when missing. */
  function RapidProKeyRemappingFromDict(j: Json): (r: Result<RapidProKeyRemapping>)
    ensures r.Ok? <==> j.JObject? && "RapidProKey" in j.fields && "PipelineKey" in j.fields
                       && ("IsActivationMessage" in j.fields ==> j.fields["IsActivationMessage"].JBool?)
                       && j.fields["RapidProKey"].JStr? && j.fields["PipelineKey"].JStr?
    ensures r.Ok? && "IsActivationMessage" !in j.fields ==> !r.value.isActivationMessage
    ensures r.Ok? && "IsActivationMessage" in j.fields ==>
              r.value.isActivationMessage == j.fields["IsActivationMessage"].b
    ensures r.Ok? ==> r.value.rapidProKey == j.fields["RapidProKey"].s
                      && r.value.pipelineKey == j.fields["PipelineKey"].s
  {
    if !j.JObject? then Err(TypeError)
    else
      var isActivation := if "IsActivationMessage" in j.fields then j.fields["IsActivationMessage"] else JBool(false);
      var rapidProKey :- Field(j, "RapidProKey");
      var pipelineKey :- Field(j, "PipelineKey");
      if isActivation.JBool? && rapidProKey.JStr? && pipelineKey.JStr?
      then Ok(RapidProKeyRemapping(isActivation.b, rapidProKey.s, pipelineKey.s))
      else Err(AssertionError)
  }

  datatype DriveUpload = DriveUpload(
    driveCredentialsFileUrl: string,
    productionUploadPath: string,
    messagesUploadPath: string,
    individualsUploadPath: string,
    tracedDataUploadPath: string)

  /** `j` is an object whose field `key` is a string. */
  predicate StringField(j: Json, key: string) {
    j.JObject? && key in j.fields && j.fields[key].JStr?
  }

  /** `DriveUpload.from_configuration_dict` with the constructor's `validate`: every key is
      required, every value a string, and the credentials URL must have the "gs" scheme. */
  function DriveUploadFromDict(j: Json): (r: Result<DriveUpload>)
    ensures r.Ok? <==> && StringField(j, "DriveCredentialsFileURL") && StringField(j, "ProductionUploadPath")
                       && StringField(j, "MessagesUploadPath") && StringField(j, "IndividualsUploadPath")
                       && StringField(j, "TracedDataUploadPath")
                       && UrlScheme(j.fields["DriveCredentialsFileURL"].s) == "gs"
    ensures r.Ok? ==> r.value == DriveUpload(j.fields["DriveCredentialsFileURL"].s, j.fields["ProductionUploadPath"].s,
                                             j.fields["MessagesUploadPath"].s, j.fields["IndividualsUploadPath"].s,
                                             j.fields["TracedDataUploadPath"].s)
  {
    var url :- Field(j, "DriveCredentialsFileURL");
    var production :- Field(j, "ProductionUploadPath");
    var messages :- Field(j, "MessagesUploadPath");
    var individuals :- Field(j, "IndividualsUploadPath");
    var tracedData :- Field(j, "TracedDataUploadPath");
    if url.JStr? && UrlScheme(url.s) == "gs" && production.JStr? && messages.JStr? && individuals.JStr? && tracedData.JStr?
    then Ok(DriveUpload(url.s, production.s, messages.s, individuals.s, tracedData.s))
    else Err(AssertionError)
  }

  /** What a Python `for` over a JSON value yields: a list's items; an empty string or
      object yields nothing; anything else fails (a number is not iterable, and the
      characters of a string or keys of an object are not dicts). */
  function Elements(j: Json): (r: Result<seq<Json>>)
    ensures j.JList? ==> r == Ok(j.items)
    ensures r.Ok? <==> j.JList? || j == JStr("") || j == JObject(map[])
  {
    match j
    case JList(items) => Ok(items)
    case JStr(s) => if s == "" then Ok([]) else Err(TypeError)
    case JObject(m) => if m == map[] then Ok([]) else Err(TypeError)
    case _ => Err(TypeError)
  }

  /** The loop of `from_configuration_dict` that builds the key remappings one by one. */
  method RemappingsFromList(items: seq<Json>) returns (res: Result<seq<RapidProKeyRemapping>>)
    ensures res.Ok? <==> forall i :: 0 <= i < |items| ==> RapidProKeyRemappingFromDict(items[i]).Ok?
    ensures res.Ok? ==> |res.value| == |items|
    ensures res.Ok? ==> forall i :: 0 <= i < |items| ==> res.value[i] == RapidProKeyRemappingFromDict(items[i]).value
  {
    var remappings: seq<RapidProKeyRemapping> := [];
    for i := 0 to |items|
      invariant |remappings| == i
      invariant forall j :: 0 <= j < i ==> RapidProKeyRemappingFromDict(items[j]).Ok?
      invariant forall j :: 0 <= j < i ==> remappings[j] == RapidProKeyRemappingFromDict(items[j]).value
    {
      var r := RapidProKeyRemappingFromDict(items[i]);
      if r.Err? {
        return Err(r.error);
      }
      remappings := remappings + [r.value];
    }
    return Ok(remappings);
  }

  datatype PipelineConfiguration = PipelineConfiguration(
    rapidProDomain: string,
    rapidProTokenFileUrl: string,
    activationFlowNames: seq<string>,
    surveyFlowNames: seq<string>,
    rapidProTestContactUuids: seq<string>,
    phoneNumberUuidTable: PhoneNumberUuidTable,
    recoveryCsvUrls: Option<seq<string>>,
    rapidProKeyRemappings: seq<RapidProKeyRemapping>,
    projectStartDate: int,
    projectEndDate: int,
    filterTestMessages: bool,
    flowDefinitionsUploadUrlPrefix: string,
    driveUpload: Option<DriveUpload>)

  /** `d.get(key)`: a JSON null and a missing key both read as None. */
  function Optional(d: map<string, Json>, key: string): (r: Option<Json>)
    ensures r.None? <==> key !in d || d[key] == JNull
    ensures r.Some? ==> r.value == d[key]
  {
    if key in d && d[key] != JNull then Some(d[key]) else None
  }

  function ParseDate(j: Json, isoparse: string -> Option<int>): (r: Result<int>)
    ensures r.Ok? <==> j.JStr? && isoparse(j.s).Some?
    ensures r.Ok? ==> r.value == isoparse(j.s).value
  {
    if !j.JStr? then Err(TypeError)
    else if isoparse(j.s).None? then Err(ValueError)
    else Ok(isoparse(j.s).value)
  }

  predicate HasRequiredKeys(d: map<string, Json>) {
    && "RapidProDomain" in d && "RapidProTokenFileURL" in d && "ActivationFlowNames" in d
    && "SurveyFlowNames" in d && "RapidProTestContactUUIDs" in d && "PhoneNumberUuidTable" in d
    && "RapidProKeyRemappings" in d && "ProjectStartDate" in d && "ProjectEndDate" in d
    && "FilterTestMessages" in d && "FlowDefinitionsUploadURLPrefix" in d
  }

  /** Everything `from_configuration_dict`, the constructors it calls and `validate` demand
      of the document, stated as one condition. */
  ghost predicate AcceptableDocument(d: map<string, Json>, isoparse: string -> Option<int>) {
    && HasRequiredKeys(d)
    && d["RapidProDomain"].JStr?
    && d["RapidProTokenFileURL"].JStr?
    && IsStringList(d["ActivationFlowNames"])
    && IsStringList(d["SurveyFlowNames"])
    && (Optional(d, "RecoveryCSVURLs").Some? ==> IsStringList(d["RecoveryCSVURLs"]))
    && IsStringList(d["RapidProTestContactUUIDs"])
    && PhoneNumberUuidTableFromDict(d["PhoneNumberUuidTable"]).Ok?
    && Elements(d["RapidProKeyRemappings"]).Ok?
    && (forall i :: 0 <= i < |Elements(d["RapidProKeyRemappings"]).value| ==>
          RapidProKeyRemappingFromDict(Elements(d["RapidProKeyRemappings"]).value[i]).Ok?)
    && ParseDate(d["ProjectStartDate"], isoparse).Ok?
    && ParseDate(d["ProjectEndDate"], isoparse).Ok?
    && d["FilterTestMessages"].JBool?
    && ("DriveUpload" in d ==> DriveUploadFromDict(d["DriveUpload"]).Ok?)
    && d["FlowDefinitionsUploadURLPrefix"].JStr?
  }

  function Required(d: map<string, Json>, key: string): (r: Result<Json>)
    ensures r.Ok? <==> key in d
    ensures r.Ok? ==> r.value == d[key]
  {
    if key in d then Ok(d[key]) else Err(KeyError(key))
  }

  /** `PipelineConfiguration.from_configuration_dict` followed by the constructor's
      `validate`. "RecoveryCSVURLs" and "DriveUpload" are optional and default to None;
      every other key is required. */
  method FromConfigurationDict(d: map<string, Json>, isoparse: string -> Option<int>)
    returns (res: Result<PipelineConfiguration>)
    ensures res.Ok? <==> AcceptableDocument(d, isoparse)
    ensures "RapidProDomain" !in d ==> res == Err(KeyError("RapidProDomain"))
    ensures res.Ok? ==> (res.value.recoveryCsvUrls.None? <==> Optional(d, "RecoveryCSVURLs").None?)
    ensures res.Ok? ==> (res.value.driveUpload.None? <==> "DriveUpload" !in d)
    ensures res.Ok? ==>
              && res.value.rapidProDomain == d["RapidProDomain"].s
              && res.value.rapidProTokenFileUrl == d["RapidProTokenFileURL"].s
              && res.value.activationFlowNames == Strings(d["ActivationFlowNames"])
              && res.value.surveyFlowNames == Strings(d["SurveyFlowNames"])
              && res.value.rapidProTestContactUuids == Strings(d["RapidProTestContactUUIDs"])
              && res.value.filterTestMessages == d["FilterTestMessages"].b
              && res.value.projectStartDate == isoparse(d["ProjectStartDate"].s).value
              && res.value.projectEndDate == isoparse(d["ProjectEndDate"].s).value
              && res.value.flowDefinitionsUploadUrlPrefix == d["FlowDefinitionsUploadURLPrefix"].s
              && res.value.phoneNumberUuidTable == PhoneNumberUuidTableFromDict(d["PhoneNumberUuidTable"]).value
    ensures res.Ok? && res.value.recoveryCsvUrls.Some? ==>
              res.value.recoveryCsvUrls.value == Strings(d["RecoveryCSVURLs"])
    ensures res.Ok? && res.value.driveUpload.Some? ==>
              res.value.driveUpload.value == DriveUploadFromDict(d["DriveUpload"]).value
    ensures res.Ok? ==>
              var items := Elements(d["RapidProKeyRemappings"]).value;
              && |res.value.rapidProKeyRemappings| == |items|
              && forall i :: 0 <= i < |items| ==>
                   res.value.rapidProKeyRemappings[i] == RapidProKeyRemappingFromDict(items[i]).value
    ensures res.Ok? ==> UrlScheme(res.value.phoneNumberUuidTable.firebaseCredentialsFileUrl) == "gs"
    ensures res.Ok? && res.value.driveUpload.Some? ==>
              UrlScheme(res.value.driveUpload.value.driveCredentialsFileUrl) == "gs"
  {
    var domain :- Required(d, "RapidProDomain");
    var tokenFileUrl :- Required(d, "RapidProTokenFileURL");
    var activationFlowNames :- Required(d, "ActivationFlowNames");
    var surveyFlowNames :- Required(d, "SurveyFlowNames");
    var recoveryCsvUrls := Optional(d, "RecoveryCSVURLs");
    var testContactUuids :- Required(d, "RapidProTestContactUUIDs");

    var tableJson :- Required(d, "PhoneNumberUuidTable");
    var table :- PhoneNumberUuidTableFromDict(tableJson);

    var remappingsJson :- Required(d, "RapidProKeyRemappings");
    var items :- Elements(remappingsJson);
    var remappings :- RemappingsFromList(items);

    var startJson :- Required(d, "ProjectStartDate");
    var start :- ParseDate(startJson, isoparse);
    var endJson :- Required(d, "ProjectEndDate");
    var end :- ParseDate(endJson, isoparse);

    var filterTestMessages :- Required(d, "FilterTestMessages");

    var driveUpload: Option<DriveUpload> := None;
    if "DriveUpload" in d {
      var drive :- DriveUploadFromDict(d["DriveUpload"]);
      driveUpload := Some(drive);
    }

    var prefix :- Required(d, "FlowDefinitionsUploadURLPrefix");

    // The constructor's validate(); the nested objects validated themselves when built.
    if !(domain.JStr? && tokenFileUrl.JStr? && IsStringList(activationFlowNames) && IsStringList(surveyFlowNames)
         && (recoveryCsvUrls.Some? ==> IsStringList(recoveryCsvUrls.value))
         && IsStringList(testContactUuids) && filterTestMessages.JBool? && prefix.JStr?) {
      return Err(AssertionError);
    }
    var recovery := if recoveryCsvUrls.Some? then Some(Strings(recoveryCsvUrls.value)) else None;
    res := Ok(PipelineConfiguration(domain.s, tokenFileUrl.s, Strings(activationFlowNames), Strings(surveyFlowNames),
                                    Strings(testContactUuids), table, recovery, remappings, start, end,
                                    filterTestMessages.b, prefix.s, driveUpload));
  }
}
