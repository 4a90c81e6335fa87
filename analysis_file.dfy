/** The analysis stage (`AnalysisFile.generate`): which columns the analysis files have and
    how each is folded, how labels become string or 0/1 matrix columns, the fix-ups applied
    to the folded per-respondent records, and the order of the phases. */
module AnalysisFile {
  import opened Wrappers
  import opened CodeSchemes
  import opened TracedDataModel
  import opened PipelineConfiguration
  import opened Consent
  import opened Sequences

  const UID_KEY := "uid"
  const CONSENT_WITHDRAWN_KEY := "consent_withdrawn"

  // ---------------------------------------------------------------------------------
  // Export columns and fold strategies

  /** The column list of the analysis files and the fold strategy lists handed to the fold. */
  datatype KeyLists = KeyLists(
    exportKeys: seq<string>,
    equalKeys: seq<string>,
    concatKeys: seq<string>,
    matrixKeys: seq<string>,
    boolKeys: seq<string>,
    binaryKeys: seq<string>)

  const INITIAL_KEY_LISTS := KeyLists([UID_KEY, CONSENT_WITHDRAWN_KEY], [UID_KEY], [], [], [CONSENT_WITHDRAWN_KEY], [])

  /** The columns one configuration contributes: none without an analysis key, the key
      itself for SINGLE, one matrix column per scheme code for MULTIPLE. */
  function ConfigColumns(cc: CodingConfiguration): seq<string> {
    match cc.analysisFileKey
    case None => []
    case Some(k) => if cc.codingMode == Single then [k] else MatrixColumns(k, cc.codeScheme)
  }

  function ConfigsColumns(cfgs: seq<CodingConfiguration>): seq<string> {
    if cfgs == [] then []
    else ConfigsColumns(cfgs[..|cfgs| - 1]) + ConfigColumns(cfgs[|cfgs| - 1])
  }

  /** A plan's columns: those of its configurations, then its raw field. */
  function PlanColumns(plan: CodingPlan): seq<string> {
    ConfigsColumns(plan.codingConfigurations) + [plan.rawField]
  }

  /** The columns of all plans, plan by plan. */
  function ExportColumns(plans: seq<CodingPlan>): seq<string> {
    if plans == [] then []
    else ExportColumns(plans[..|plans| - 1]) + PlanColumns(plans[|plans| - 1])
  }

  /** The mode combinations the analysis stage accepts for a configuration with a key. */
  predicate CompatibleConfig(cc: CodingConfiguration) {
    || cc.analysisFileKey.None?
    || (cc.codingMode == Single && (cc.foldingMode == AssertEqual || cc.foldingMode == YesNoAmb))
    || (cc.codingMode == Multiple && cc.foldingMode == Matrix)
  }

  /** What an incompatible configuration raises. In the SINGLE branch the assertion's
      message reads `plan.folding_mode`, an attribute a coding plan does not have, so the
      failing `assert` raises an AttributeError (a TypeError here) before its
      AssertionError; the MULTIPLE branch's bare `assert` raises an AssertionError. */
  function ConfigError(cc: CodingConfiguration): Error {
    if cc.codingMode == Single then TypeError else AssertionError
  }

  /** The inner loop over `cfgs` stops at an incompatible configuration, every one before
      it being compatible, and raises that configuration's error `e`. */
  predicate ConfigsFailWith(cfgs: seq<CodingConfiguration>, e: Error) {
    exists c :: 0 <= c < |cfgs| && (forall d :: 0 <= d < c ==> CompatibleConfig(cfgs[d]))
                && !CompatibleConfig(cfgs[c]) && e == ConfigError(cfgs[c])
  }

  /** A plan's pass of the outer loop fails with `e`: at its first incompatible
      configuration, or, when all are compatible, at its raw folding mode with an
      AssertionError. */
  predicate PlanFailsWith(plan: CodingPlan, e: Error) {
    || ConfigsFailWith(plan.codingConfigurations, e)
    || (&& (forall c :: 0 <= c < |plan.codingConfigurations| ==> CompatibleConfig(plan.codingConfigurations[c]))
        && plan.rawFieldFoldingMode != Concatenate && plan.rawFieldFoldingMode != AssertEqual
        && e == AssertionError)
  }

  predicate CompatiblePlan(plan: CodingPlan) {
    && (forall i :: 0 <= i < |plan.codingConfigurations| ==> CompatibleConfig(plan.codingConfigurations[i]))
    && (plan.rawFieldFoldingMode == Concatenate || plan.rawFieldFoldingMode == AssertEqual)
  }

  /** The columns handed to the fold strategies, counted with repeats. */
  function Strategies(kl: KeyLists): multiset<string> {
    multiset(kl.equalKeys) + multiset(kl.concatKeys) + multiset(kl.matrixKeys)
    + multiset(kl.boolKeys) + multiset(kl.binaryKeys)
  }

  /** Every exported column is handed to exactly one fold strategy (counting repeats). */
  predicate Balanced(kl: KeyLists) {
    multiset(kl.exportKeys) == Strategies(kl)
  }

  /** Appending the same columns to the export list and to one strategy list keeps the
      lists balanced. */
  lemma BalancedAppend(kl: KeyLists, kl': KeyLists, cols: seq<string>)
    requires Balanced(kl)
    requires kl'.exportKeys == kl.exportKeys + cols
    requires || kl' == kl.(exportKeys := kl'.exportKeys, equalKeys := kl.equalKeys + cols)
             || kl' == kl.(exportKeys := kl'.exportKeys, concatKeys := kl.concatKeys + cols)
             || kl' == kl.(exportKeys := kl'.exportKeys, matrixKeys := kl.matrixKeys + cols)
             || kl' == kl.(exportKeys := kl'.exportKeys, binaryKeys := kl.binaryKeys + cols)
    ensures Balanced(kl')
  {
    forall x ensures Strategies(kl')[x] == Strategies(kl)[x] + multiset(cols)[x] {
    }
    assert Strategies(kl') == Strategies(kl) + multiset(cols);
  }

  /** Each list of `b` starts with the corresponding list of `a`. */
  predicate Extends(a: KeyLists, b: KeyLists) {
    && a.exportKeys <= b.exportKeys && a.equalKeys <= b.equalKeys && a.concatKeys <= b.concatKeys
    && a.matrixKeys <= b.matrixKeys && a.boolKeys <= b.boolKeys && a.binaryKeys <= b.binaryKeys
  }

  /** A configuration's columns are in the strategy list its modes call for. */
  predicate Classified(kl: KeyLists, cc: CodingConfiguration) {
    match cc.analysisFileKey
    case None => true
    case Some(k) =>
      && (cc.codingMode == Single && cc.foldingMode == AssertEqual ==> k in kl.equalKeys)
      && (cc.codingMode == Single && cc.foldingMode == YesNoAmb ==> k in kl.binaryKeys)
      && (cc.codingMode == Multiple ==> forall c :: c in MatrixColumns(k, cc.codeScheme) ==> c in kl.matrixKeys)
  }

  /** A plan's raw field is in the strategy list its raw folding mode calls for. */
  predicate ClassifiedRaw(kl: KeyLists, plan: CodingPlan) {
    && (plan.rawFieldFoldingMode == Concatenate ==> plan.rawField in kl.concatKeys)
    && (plan.rawFieldFoldingMode == AssertEqual ==> plan.rawField in kl.equalKeys)
  }

  /** One pass of the inner key-list loop. */
  function AddConfigKeys(kl: KeyLists, cc: CodingConfiguration): Result<KeyLists> {
    match cc.analysisFileKey
    case None => Ok(kl)
    case Some(k) =>
      if cc.codingMode == Single then
        if cc.foldingMode == AssertEqual then
          Ok(kl.(exportKeys := kl.exportKeys + [k], equalKeys := kl.equalKeys + [k]))
        else if cc.foldingMode == YesNoAmb then
          Ok(kl.(exportKeys := kl.exportKeys + [k], binaryKeys := kl.binaryKeys + [k]))
        else Err(ConfigError(cc))
      else if cc.foldingMode != Matrix then Err(ConfigError(cc))
      else
        var cols := MatrixColumns(k, cc.codeScheme);
        Ok(kl.(exportKeys := kl.exportKeys + cols, matrixKeys := kl.matrixKeys + cols))
  }

  function AddConfigsKeys(kl: KeyLists, cfgs: seq<CodingConfiguration>): Result<KeyLists> {
    if cfgs == [] then Ok(kl)
    else
      var kl' :- AddConfigsKeys(kl, cfgs[..|cfgs| - 1]);
      AddConfigKeys(kl', cfgs[|cfgs| - 1])
  }

  /** The raw-field step that closes each pass of the outer key-list loop. */
  function AddRawKey(kl: KeyLists, plan: CodingPlan): Result<KeyLists> {
    var kl' := kl.(exportKeys := kl.exportKeys + [plan.rawField]);
    if plan.rawFieldFoldingMode == Concatenate then Ok(kl'.(concatKeys := kl.concatKeys + [plan.rawField]))
    else if plan.rawFieldFoldingMode == AssertEqual then Ok(kl'.(equalKeys := kl.equalKeys + [plan.rawField]))
    else Err(AssertionError)
  }

  /** The key lists the analysis stage builds for the given plans. */
  function KeyListsFor(plans: seq<CodingPlan>): Result<KeyLists> {
    if plans == [] then Ok(INITIAL_KEY_LISTS)
    else
      var kl :- KeyListsFor(plans[..|plans| - 1]);
      var kl' :- AddConfigsKeys(kl, plans[|plans| - 1].codingConfigurations);
      AddRawKey(kl', plans[|plans| - 1])
  }

  lemma ClassifiedExtends(a: KeyLists, b: KeyLists, cc: CodingConfiguration)
    requires Extends(a, b) && Classified(a, cc)
    ensures Classified(b, cc)
  {
    if cc.analysisFileKey.Some? {
      var k := cc.analysisFileKey.value;
      assert forall x :: x in a.equalKeys ==> x in b.equalKeys by {
        forall x | x in a.equalKeys ensures x in b.equalKeys {
          var i :| 0 <= i < |a.equalKeys| && a.equalKeys[i] == x;
          assert b.equalKeys[i] == x;
        }
      }
      assert forall x :: x in a.binaryKeys ==> x in b.binaryKeys by {
        forall x | x in a.binaryKeys ensures x in b.binaryKeys {
          var i :| 0 <= i < |a.binaryKeys| && a.binaryKeys[i] == x;
          assert b.binaryKeys[i] == x;
        }
      }
      assert forall x :: x in a.matrixKeys ==> x in b.matrixKeys by {
        forall x | x in a.matrixKeys ensures x in b.matrixKeys {
          var i :| 0 <= i < |a.matrixKeys| && a.matrixKeys[i] == x;
          assert b.matrixKeys[i] == x;
        }
      }
    }
  }

  lemma ClassifiedRawExtends(a: KeyLists, b: KeyLists, plan: CodingPlan)
    requires Extends(a, b) && ClassifiedRaw(a, plan)
    ensures ClassifiedRaw(b, plan)
  {
    if plan.rawFieldFoldingMode == Concatenate {
      var i :| 0 <= i < |a.concatKeys| && a.concatKeys[i] == plan.rawField;
      assert b.concatKeys[i] == plan.rawField;
    }
    if plan.rawFieldFoldingMode == AssertEqual {
      var i :| 0 <= i < |a.equalKeys| && a.equalKeys[i] == plan.rawField;
      assert b.equalKeys[i] == plan.rawField;
    }
  }

  /** One pass of the inner loop: it fails exactly on an incompatible configuration with a
      key; otherwise it appends the configuration's columns to the export list, extends the
      lists, keeps them balanced and files the columns under the configuration's strategy. */
  lemma AddConfigKeysStep(kl: KeyLists, cc: CodingConfiguration)
    ensures AddConfigKeys(kl, cc).Ok? <==> CompatibleConfig(cc)
    ensures AddConfigKeys(kl, cc).Err? ==> AddConfigKeys(kl, cc).error == ConfigError(cc)
    ensures AddConfigKeys(kl, cc).Ok? ==>
              var kl' := AddConfigKeys(kl, cc).value;
              && kl'.exportKeys == kl.exportKeys + ConfigColumns(cc)
              && Extends(kl, kl')
              && (Balanced(kl) ==> Balanced(kl'))
              && Classified(kl', cc)
  {
    match cc.analysisFileKey
    case None =>
    case Some(k) =>
      var cols := ConfigColumns(cc);
      if CompatibleConfig(cc) {
        var kl' :=
          if cc.codingMode == Multiple then kl.(exportKeys := kl.exportKeys + cols, matrixKeys := kl.matrixKeys + cols)
          else if cc.foldingMode == AssertEqual then kl.(exportKeys := kl.exportKeys + cols, equalKeys := kl.equalKeys + cols)
          else kl.(exportKeys := kl.exportKeys + cols, binaryKeys := kl.binaryKeys + cols);
        assert AddConfigKeys(kl, cc) == Ok(kl');
        PrefixOfAppend(kl.exportKeys, cols);
        PrefixOfAppend(kl.equalKeys, cols);
        PrefixOfAppend(kl.matrixKeys, cols);
        PrefixOfAppend(kl.binaryKeys, cols);
        if Balanced(kl) {
          BalancedAppend(kl, kl', cols);
        }
      }
  }

  lemma PrefixOfAppend(a: seq<string>, b: seq<string>)
    ensures a <= a + b
  {
  }

  /** The raw-field step, likewise. */
  lemma AddRawKeyStep(kl: KeyLists, plan: CodingPlan)
    ensures AddRawKey(kl, plan).Ok? <==> (plan.rawFieldFoldingMode == Concatenate || plan.rawFieldFoldingMode == AssertEqual)
    ensures AddRawKey(kl, plan).Ok? ==>
              var kl' := AddRawKey(kl, plan).value;
              && kl'.exportKeys == kl.exportKeys + [plan.rawField]
              && Extends(kl, kl')
              && (Balanced(kl) ==> Balanced(kl'))
              && ClassifiedRaw(kl', plan)
  {
  }

  lemma ExtendsTransitive(a: KeyLists, b: KeyLists, c: KeyLists)
    requires Extends(a, b) && Extends(b, c)
    ensures Extends(a, c)
  {
  }

  /** The inner loop over a plan's configurations fails exactly on an incompatible one,
      with the error of the first. */
  lemma {:induction false} AddConfigsKeysOk(kl: KeyLists, cfgs: seq<CodingConfiguration>)
    ensures AddConfigsKeys(kl, cfgs).Ok? <==> forall i :: 0 <= i < |cfgs| ==> CompatibleConfig(cfgs[i])
    ensures AddConfigsKeys(kl, cfgs).Err? ==> ConfigsFailWith(cfgs, AddConfigsKeys(kl, cfgs).error)
  {
    if cfgs != [] {
      var n := |cfgs| - 1;
      AddConfigsKeysOk(kl, cfgs[..n]);
      assert forall i :: 0 <= i < n ==> cfgs[..n][i] == cfgs[i];
      if AddConfigsKeys(kl, cfgs[..n]).Ok? {
        AddConfigKeysStep(AddConfigsKeys(kl, cfgs[..n]).value, cfgs[n]);
        if AddConfigsKeys(kl, cfgs).Err? {
          assert !CompatibleConfig(cfgs[n]) && AddConfigsKeys(kl, cfgs).error == ConfigError(cfgs[n]);
        }
      } else {
        var e := AddConfigsKeys(kl, cfgs[..n]).error;
        assert AddConfigsKeys(kl, cfgs) == Err(e);
        var c :| 0 <= c < n && (forall d :: 0 <= d < c ==> CompatibleConfig(cfgs[..n][d]))
                 && !CompatibleConfig(cfgs[..n][c]) && e == ConfigError(cfgs[..n][c]);
        assert cfgs[..n][c] == cfgs[c];
      }
    }
  }

  /** On success the inner loop appends the configurations' columns to the export list,
      only extends the lists and keeps them balanced. */
  lemma {:induction false} AddConfigsKeysExport(kl: KeyLists, cfgs: seq<CodingConfiguration>)
    requires AddConfigsKeys(kl, cfgs).Ok?
    ensures AddConfigsKeys(kl, cfgs).value.exportKeys == kl.exportKeys + ConfigsColumns(cfgs)
    ensures Extends(kl, AddConfigsKeys(kl, cfgs).value)
    ensures Balanced(kl) ==> Balanced(AddConfigsKeys(kl, cfgs).value)
  {
    if cfgs != [] {
      var n := |cfgs| - 1;
      var mid := AddConfigsKeys(kl, cfgs[..n]).value;
      AddConfigsKeysExport(kl, cfgs[..n]);
      AddConfigKeysStep(mid, cfgs[n]);
      var kl' := AddConfigKeys(mid, cfgs[n]).value;
      ExtendsTransitive(kl, mid, kl');
      AppendAssociative(kl.exportKeys, ConfigsColumns(cfgs[..n]), ConfigColumns(cfgs[n]));
    }
  }

  /** On success the inner loop files every configuration's columns under its strategy. */
  lemma {:induction false} AddConfigsKeysClassified(kl: KeyLists, cfgs: seq<CodingConfiguration>)
    requires AddConfigsKeys(kl, cfgs).Ok?
    ensures forall i :: 0 <= i < |cfgs| ==> Classified(AddConfigsKeys(kl, cfgs).value, cfgs[i])
  {
    if cfgs != [] {
      var n := |cfgs| - 1;
      var mid := AddConfigsKeys(kl, cfgs[..n]).value;
      AddConfigsKeysClassified(kl, cfgs[..n]);
      AddConfigKeysStep(mid, cfgs[n]);
      var kl' := AddConfigKeys(mid, cfgs[n]).value;
      forall i | 0 <= i < |cfgs| ensures Classified(kl', cfgs[i]) {
        if i < n {
          assert cfgs[..n][i] == cfgs[i];
          ClassifiedExtends(mid, kl', cfgs[i]);
        }
      }
    }
  }

  /** The outer loop stops at plan `p`, every plan before it being compatible, with `e`. */
  predicate PlansFailWith(plans: seq<CodingPlan>, e: Error) {
    exists p :: 0 <= p < |plans| && (forall q :: 0 <= q < p ==> CompatiblePlan(plans[q]))
                && PlanFailsWith(plans[p], e)
  }

  /** The pass over the last plan, after the earlier plans built `kl`. */
  lemma KeyListsForLastPlan(plans: seq<CodingPlan>, kl: KeyLists)
    requires plans != [] && KeyListsFor(plans[..|plans| - 1]) == Ok(kl)
    ensures KeyListsFor(plans).Ok? <==> CompatiblePlan(plans[|plans| - 1])
    ensures KeyListsFor(plans).Err? ==> PlanFailsWith(plans[|plans| - 1], KeyListsFor(plans).error)
  {
    var plan := plans[|plans| - 1];
    var configured := AddConfigsKeys(kl, plan.codingConfigurations);
    AddConfigsKeysOk(kl, plan.codingConfigurations);
    if configured.Ok? {
      assert KeyListsFor(plans) == AddRawKey(configured.value, plan);
      AddRawKeyStep(configured.value, plan);
    } else {
      assert KeyListsFor(plans) == Err(configured.error);
      assert ConfigsFailWith(plan.codingConfigurations, configured.error);
    }
  }

  /** Building the key lists fails exactly when some plan has an incompatible configuration
      or raw folding mode, and then with the error of the first such plan. */
  lemma {:induction false} KeyListsForOk(plans: seq<CodingPlan>)
    ensures KeyListsFor(plans).Ok? <==> forall i :: 0 <= i < |plans| ==> CompatiblePlan(plans[i])
    ensures KeyListsFor(plans).Err? ==> PlansFailWith(plans, KeyListsFor(plans).error)
  {
    if plans != [] {
      var n := |plans| - 1;
      KeyListsForOk(plans[..n]);
      assert forall i :: 0 <= i < n ==> plans[..n][i] == plans[i];
      if KeyListsFor(plans[..n]).Ok? {
        KeyListsForLastPlan(plans, KeyListsFor(plans[..n]).value);
        if KeyListsFor(plans).Err? {
          assert PlanFailsWith(plans[n], KeyListsFor(plans).error);
        }
      } else {
        var e := KeyListsFor(plans[..n]).error;
        assert KeyListsFor(plans) == Err(e);
        var p :| 0 <= p < n && (forall q :: 0 <= q < p ==> CompatiblePlan(plans[..n][q]))
                 && PlanFailsWith(plans[..n][p], e);
        assert plans[..n][p] == plans[p];
      }
    }
  }

  /** How a successful KeyListsFor unfolds on its last plan. */
  lemma KeyListsForLast(plans: seq<CodingPlan>)
    requires plans != [] && KeyListsFor(plans).Ok?
    ensures KeyListsFor(plans[..|plans| - 1]).Ok?
    ensures AddConfigsKeys(KeyListsFor(plans[..|plans| - 1]).value, plans[|plans| - 1].codingConfigurations).Ok?
    ensures AddRawKey(AddConfigsKeys(KeyListsFor(plans[..|plans| - 1]).value, plans[|plans| - 1].codingConfigurations).value,
                      plans[|plans| - 1]) == KeyListsFor(plans)
  {
  }

  lemma AppendAssociative(a: seq<string>, b: seq<string>, c: seq<string>)
    ensures (a + b) + c == a + (b + c)
  {
  }

  /** A successful pass of the outer loop appends the plan's columns to the export list. */
  lemma KeyListsForExportStep(plans: seq<CodingPlan>)
    requires plans != [] && KeyListsFor(plans).Ok?
    ensures KeyListsFor(plans[..|plans| - 1]).Ok?
    ensures KeyListsFor(plans).value.exportKeys
            == KeyListsFor(plans[..|plans| - 1]).value.exportKeys + PlanColumns(plans[|plans| - 1])
  {
    var n := |plans| - 1;
    var plan := plans[n];
    KeyListsForLast(plans);
    var kl := KeyListsFor(plans[..n]).value;
    AddConfigsKeysExport(kl, plan.codingConfigurations);
    var mid := AddConfigsKeys(kl, plan.codingConfigurations).value;
    var cols := ConfigsColumns(plan.codingConfigurations);
    AddRawKeyStep(mid, plan);
    AppendAssociative(kl.exportKeys, cols, [plan.rawField]);
  }

  /** On success the export columns are "uid", "consent_withdrawn", then each plan's
      configuration columns and raw field in plan order. */
  lemma {:induction false} KeyListsForExport(plans: seq<CodingPlan>)
    requires KeyListsFor(plans).Ok?
    ensures KeyListsFor(plans).value.exportKeys == [UID_KEY, CONSENT_WITHDRAWN_KEY] + ExportColumns(plans)
  {
    if plans != [] {
      var n := |plans| - 1;
      KeyListsForExportStep(plans);
      KeyListsForExport(plans[..n]);
      var head := [UID_KEY, CONSENT_WITHDRAWN_KEY];
      var e := ExportColumns(plans[..n]);
      var pc := PlanColumns(plans[n]);
      assert ExportColumns(plans) == e + pc;
      AppendAssociative(head, e, pc);
    }
  }

  /** On success every exported column goes to exactly one fold strategy. */
  lemma {:induction false} KeyListsForBalanced(plans: seq<CodingPlan>)
    requires KeyListsFor(plans).Ok?
    ensures Balanced(KeyListsFor(plans).value)
  {
    if plans != [] {
      var n := |plans| - 1;
      var plan := plans[n];
      KeyListsForLast(plans);
      KeyListsForBalanced(plans[..n]);
      var kl := KeyListsFor(plans[..n]).value;
      AddConfigsKeysExport(kl, plan.codingConfigurations);
      AddRawKeyStep(AddConfigsKeys(kl, plan.codingConfigurations).value, plan);
    }
  }

  /** A successful pass of the outer loop only extends the lists, and files the plan's
      configurations and raw field under their strategies. */
  lemma KeyListsForClassifiedStep(plans: seq<CodingPlan>)
    requires plans != [] && KeyListsFor(plans).Ok?
    ensures KeyListsFor(plans[..|plans| - 1]).Ok?
    ensures Extends(KeyListsFor(plans[..|plans| - 1]).value, KeyListsFor(plans).value)
    ensures forall cc :: cc in plans[|plans| - 1].codingConfigurations ==> Classified(KeyListsFor(plans).value, cc)
    ensures ClassifiedRaw(KeyListsFor(plans).value, plans[|plans| - 1])
  {
    var n := |plans| - 1;
    var plan := plans[n];
    KeyListsForLast(plans);
    var kl := KeyListsFor(plans[..n]).value;
    AddConfigsKeysExport(kl, plan.codingConfigurations);
    AddConfigsKeysClassified(kl, plan.codingConfigurations);
    var mid := AddConfigsKeys(kl, plan.codingConfigurations).value;
    AddRawKeyStep(mid, plan);
    var kl' := AddRawKey(mid, plan).value;
    ExtendsTransitive(kl, mid, kl');
    forall cc | cc in plan.codingConfigurations ensures Classified(kl', cc) {
      ClassifiedExtends(mid, kl', cc);
    }
  }

  /** On success every configuration's columns are filed under the fold strategy its modes
      call for. */
  lemma {:induction false} KeyListsForClassified(plans: seq<CodingPlan>)
    requires KeyListsFor(plans).Ok?
    ensures forall i, j :: 0 <= i < |plans| && 0 <= j < |plans[i].codingConfigurations| ==>
              Classified(KeyListsFor(plans).value, plans[i].codingConfigurations[j])
  {
    if plans != [] {
      var n := |plans| - 1;
      KeyListsForClassifiedStep(plans);
      KeyListsForClassified(plans[..n]);
      forall i, j | 0 <= i < n && 0 <= j < |plans[i].codingConfigurations|
        ensures Classified(KeyListsFor(plans).value, plans[i].codingConfigurations[j])
      {
        assert plans[..n][i] == plans[i];
        ClassifiedExtends(KeyListsFor(plans[..n]).value, KeyListsFor(plans).value, plans[i].codingConfigurations[j]);
      }
    }
  }

  /** On success every raw field is filed under the fold strategy its plan calls for. */
  lemma {:induction false} KeyListsForClassifiedRaw(plans: seq<CodingPlan>)
    requires KeyListsFor(plans).Ok?
    ensures forall i :: 0 <= i < |plans| ==> ClassifiedRaw(KeyListsFor(plans).value, plans[i])
  {
    if plans != [] {
      var n := |plans| - 1;
      KeyListsForClassifiedStep(plans);
      KeyListsForClassifiedRaw(plans[..n]);
      forall i | 0 <= i < n ensures ClassifiedRaw(KeyListsFor(plans).value, plans[i]) {
        assert plans[..n][i] == plans[i];
        ClassifiedRawExtends(KeyListsFor(plans[..n]).value, KeyListsFor(plans).value, plans[i]);
      }
    }
  }

  /** The loop over a MULTIPLE configuration's codes (src/analysis_file.py:137-139): one
      export column and one matrix column per code, in the scheme's order. */
  method AppendMatrixColumns(exportKeys: seq<string>, matrixKeys: seq<string>, key: string, scheme: Scheme)
    returns (exportKeys': seq<string>, matrixKeys': seq<string>)
    ensures exportKeys' == exportKeys + MatrixColumns(key, scheme)
    ensures matrixKeys' == matrixKeys + MatrixColumns(key, scheme)
  {
    var codes := scheme.codes;
    exportKeys', matrixKeys' := exportKeys, matrixKeys;
    for i := 0 to |codes|
      invariant exportKeys' == exportKeys + MatrixColumns(key, scheme)[..i]
      invariant matrixKeys' == matrixKeys + MatrixColumns(key, scheme)[..i]
    {
      exportKeys' := exportKeys' + [key + codes[i].stringValue];
      matrixKeys' := matrixKeys' + [key + codes[i].stringValue];
      assert MatrixColumns(key, scheme)[..i + 1] == MatrixColumns(key, scheme)[..i] + [key + codes[i].stringValue];
    }
    assert MatrixColumns(key, scheme)[..|codes|] == MatrixColumns(key, scheme);
  }

  /** The first incompatible plan decides the error of the whole build. */
  lemma FirstFailingPlan(plans: seq<CodingPlan>, p: nat)
    requires p < |plans| && !CompatiblePlan(plans[p])
    requires forall q :: 0 <= q < p ==> CompatiblePlan(plans[q])
    ensures KeyListsFor(plans).Err? && PlanFailsWith(plans[p], KeyListsFor(plans).error)
  {
    KeyListsForOk(plans);
    var e := KeyListsFor(plans).error;
    var p' :| 0 <= p' < |plans| && (forall q :: 0 <= q < p' ==> CompatiblePlan(plans[q])) && PlanFailsWith(plans[p'], e);
    if ConfigsFailWith(plans[p'].codingConfigurations, e) {
      var c :| 0 <= c < |plans[p'].codingConfigurations| && !CompatibleConfig(plans[p'].codingConfigurations[c]);
    }
    assert !CompatiblePlan(plans[p']);
    assert p' == p;
  }

  /** In `BuildKeyLists`, a raw folding mode the loops stop at, after every earlier item
      was compatible, makes the whole build an assertion failure. */
  lemma FirstIncompatibleRaw(plans: seq<CodingPlan>, p: nat, start: KeyLists)
    requires p < |plans|
    requires plans[p].rawFieldFoldingMode != Concatenate && plans[p].rawFieldFoldingMode != AssertEqual
    requires KeyListsFor(plans[..p]) == Ok(start)
    requires AddConfigsKeys(start, plans[p].codingConfigurations).Ok?
    ensures KeyListsFor(plans) == Err(AssertionError)
  {
    var cfgs := plans[p].codingConfigurations;
    KeyListsForOk(plans[..p]);
    AddConfigsKeysOk(start, cfgs);
    assert forall q :: 0 <= q < p ==> plans[..p][q] == plans[q];
    FirstFailingPlan(plans, p);
  }

  /** In `BuildKeyLists`, the configuration the loops stop at is the first incompatible
      item, so its error is the error of the whole build. */
  lemma FirstIncompatible(plans: seq<CodingPlan>, p: nat, c: nat, start: KeyLists)
    requires p < |plans| && c < |plans[p].codingConfigurations|
    requires !CompatibleConfig(plans[p].codingConfigurations[c])
    requires KeyListsFor(plans[..p]) == Ok(start)
    requires AddConfigsKeys(start, plans[p].codingConfigurations[..c]).Ok?
    ensures KeyListsFor(plans) == Err(ConfigError(plans[p].codingConfigurations[c]))
  {
    var cfgs := plans[p].codingConfigurations;
    KeyListsForOk(plans[..p]);
    AddConfigsKeysOk(start, cfgs[..c]);
    assert forall q :: 0 <= q < p ==> plans[..p][q] == plans[q];
    assert forall d :: 0 <= d < c ==> cfgs[..c][d] == cfgs[d];
    ConfigErrorFails(plans, p, c);
  }

  /** The two loops of `generate` that build the key lists (src/analysis_file.py:102-147). */
  method BuildKeyLists(plans: seq<CodingPlan>) returns (res: Result<KeyLists>)
    ensures res == KeyListsFor(plans)
  {
    var exportKeys, equalKeys, concatKeys, matrixKeys, boolKeys, binaryKeys :=
      [UID_KEY, CONSENT_WITHDRAWN_KEY], [UID_KEY], [], [], [CONSENT_WITHDRAWN_KEY], [];
    for p := 0 to |plans|
      invariant KeyListsFor(plans[..p]) == Ok(KeyLists(exportKeys, equalKeys, concatKeys, matrixKeys, boolKeys, binaryKeys))
    {
      var plan := plans[p];
      assert plans[..p + 1][..p] == plans[..p];
      ghost var start := KeyLists(exportKeys, equalKeys, concatKeys, matrixKeys, boolKeys, binaryKeys);
      var cfgs := plan.codingConfigurations;
      for c := 0 to |cfgs|
        invariant AddConfigsKeys(start, cfgs[..c]) == Ok(KeyLists(exportKeys, equalKeys, concatKeys, matrixKeys, boolKeys, binaryKeys))
      {
        var cc := cfgs[c];
        assert cfgs[..c + 1][..c] == cfgs[..c];
        if cc.analysisFileKey.None? {
          continue;
        }
        var key := cc.analysisFileKey.value;
        if cc.codingMode == Single {
          exportKeys := exportKeys + [key];
          if cc.foldingMode == AssertEqual {
            equalKeys := equalKeys + [key];
          } else if cc.foldingMode == YesNoAmb {
            binaryKeys := binaryKeys + [key];
          } else {
            FirstIncompatible(plans, p, c, start);
            return Err(TypeError);
          }
        } else {
          if cc.foldingMode != Matrix {
            FirstIncompatible(plans, p, c, start);
            return Err(AssertionError);
          }
          exportKeys, matrixKeys := AppendMatrixColumns(exportKeys, matrixKeys, key, cc.codeScheme);
        }
      }
      assert cfgs[..|cfgs|] == cfgs;
      exportKeys := exportKeys + [plan.rawField];
      if plan.rawFieldFoldingMode == Concatenate {
        concatKeys := concatKeys + [plan.rawField];
      } else if plan.rawFieldFoldingMode == AssertEqual {
        equalKeys := equalKeys + [plan.rawField];
      } else {
        FirstIncompatibleRaw(plans, p, start);
        return Err(AssertionError);
      }
    }
    assert plans[..|plans|] == plans;
    return Ok(KeyLists(exportKeys, equalKeys, concatKeys, matrixKeys, boolKeys, binaryKeys));
  }

  /** An incompatible configuration makes building the key lists fail; when it is the
      first incompatible item, the failure is its own error. */
  lemma ConfigErrorFails(plans: seq<CodingPlan>, p: nat, c: nat)
    requires p < |plans| && c < |plans[p].codingConfigurations|
    requires !CompatibleConfig(plans[p].codingConfigurations[c])
    ensures KeyListsFor(plans).Err?
    ensures (forall q :: 0 <= q < p ==> CompatiblePlan(plans[q])) &&
            (forall d :: 0 <= d < c ==> CompatibleConfig(plans[p].codingConfigurations[d])) ==>
              KeyListsFor(plans) == Err(ConfigError(plans[p].codingConfigurations[c]))
  {
    KeyListsForOk(plans);
    var cfgs := plans[p].codingConfigurations;
    if (forall q :: 0 <= q < p ==> CompatiblePlan(plans[q])) && (forall d :: 0 <= d < c ==> CompatibleConfig(cfgs[d])) {
      FirstFailingPlan(plans, p);
      var e := KeyListsFor(plans).error;
      assert ConfigsFailWith(cfgs, e);
      var c' :| 0 <= c' < |cfgs| && (forall d :: 0 <= d < c' ==> CompatibleConfig(cfgs[d]))
                && !CompatibleConfig(cfgs[c']) && e == ConfigError(cfgs[c']);
      assert c' == c;
    }
  }

  // ---------------------------------------------------------------------------------
  // Code-to-column materialisation

  /** The CodeIDs of the labels `td.get(cc.coded_field, [])` iterates over: none when the
      field is absent (or holds an empty string, which iterates over nothing); a label list
      gives its labels; anything else fails on `label['CodeID']` or on iteration. */
  function LabelIds(r: Record, codedField: string): (res: Result<seq<string>>)
    ensures codedField !in r ==> res == Ok([])
    ensures codedField in r && r[codedField].CodedList? ==> res == Ok(r[codedField].codeIds)
  {
    if codedField !in r then Ok([])
    else match r[codedField]
      case CodedList(ids) => Ok(ids)
      case Str(text) => if text == "" then Ok([]) else Err(TypeError)
      case _ => Err(TypeError)
  }

  /** The matrix columns of the codes the labels name (labels whose id the scheme lacks
      name none). */
  function LabelledColumns(k: string, s: Scheme, ids: seq<string>): set<string> {
    if ids == [] then {}
    else
      var code := GetCodeWithId(s, ids[|ids| - 1]);
      LabelledColumns(k, s, ids[..|ids| - 1]) + (if code.Some? then {k + code.value.stringValue} else {})
  }

  /** The label loop: each label's matrix column becomes MATRIX_1; an id the scheme lacks
      is a KeyError. */
  function SetMatrixOnes(d: Record, k: string, s: Scheme, ids: seq<string>): Result<Record> {
    if ids == [] then Ok(d)
    else
      var d' :- SetMatrixOnes(d, k, s, ids[..|ids| - 1]);
      var id := ids[|ids| - 1];
      var code := GetCodeWithId(s, id);
      if code.None? then Err(KeyError(id)) else Ok(d'[k + code.value.stringValue := Str(MATRIX_1)])
  }

  /** The zero-fill loop: every column not yet in the dict becomes MATRIX_0. */
  function FillMatrixZeros(d: Record, cols: seq<string>): Record {
    d + map c | c in cols && c !in d :: Str(MATRIX_0)
  }

  /** What one configuration adds to a record's analysis dict. */
  function AddConfigColumns(r: Record, cc: CodingConfiguration, d: Record): Result<Record> {
    match cc.analysisFileKey
    case None => Ok(d)
    case Some(k) =>
      if cc.codingMode == Single then
        var id :- CodeIdAt(r, cc.codedField);
        var code := GetCodeWithId(cc.codeScheme, id);
        if code.None? then Err(KeyError(id)) else Ok(d[k := Str(code.value.stringValue)])
      else
        var ids :- LabelIds(r, cc.codedField);
        var d' :- SetMatrixOnes(d, k, cc.codeScheme, ids);
        Ok(FillMatrixZeros(d', MatrixColumns(k, cc.codeScheme)))
  }

  function AddConfigsColumns(r: Record, d: Record, cfgs: seq<CodingConfiguration>): Result<Record> {
    if cfgs == [] then Ok(d)
    else
      var d' :- AddConfigsColumns(r, d, cfgs[..|cfgs| - 1]);
      AddConfigColumns(r, cfgs[|cfgs| - 1], d')
  }

  /** The analysis dict `generate` builds for one record from the configurations of all
      plans. */
  function AnalysisDict(r: Record, cfgs: seq<CodingConfiguration>): Result<Record> {
    AddConfigsColumns(r, map[], cfgs)
  }

  /** How the label loop unfolds on its last label. */
  lemma SetMatrixOnesLast(d: Record, k: string, s: Scheme, ids: seq<string>)
    requires ids != []
    ensures var pre := SetMatrixOnes(d, k, s, ids[..|ids| - 1]);
            var code := GetCodeWithId(s, ids[|ids| - 1]);
            SetMatrixOnes(d, k, s, ids) ==
              if pre.Err? then pre
              else if code.None? then Err(KeyError(ids[|ids| - 1]))
              else Ok(pre.value[k + code.value.stringValue := Str(MATRIX_1)])
  {
  }

  /** The label loop succeeds exactly when the scheme has every label's id. */
  lemma {:induction false} SetMatrixOnesOk(d: Record, k: string, s: Scheme, ids: seq<string>)
    ensures SetMatrixOnes(d, k, s, ids).Ok? <==> forall i :: 0 <= i < |ids| ==> GetCodeWithId(s, ids[i]).Some?
  {
    if ids != [] {
      var n := |ids| - 1;
      SetMatrixOnesLast(d, k, s, ids);
      SetMatrixOnesOk(d, k, s, ids[..n]);
      if forall i :: 0 <= i < |ids| ==> GetCodeWithId(s, ids[i]).Some? {
        forall i | 0 <= i < n ensures GetCodeWithId(s, ids[..n][i]).Some? {
          assert ids[..n][i] == ids[i];
        }
      }
      if SetMatrixOnes(d, k, s, ids).Ok? {
        assert SetMatrixOnes(d, k, s, ids[..n]).Ok? && GetCodeWithId(s, ids[n]).Some?;
        forall i | 0 <= i < |ids| ensures GetCodeWithId(s, ids[i]).Some? {
          if i < n {
            assert GetCodeWithId(s, ids[..n][i]).Some?;
            assert ids[..n][i] == ids[i];
          } else {
            assert i == n;
          }
        }
      }
    }
  }

  /** On success the label loop adds the labels' columns as MATRIX_1 and leaves every other
      entry alone. */
  lemma {:induction false} SetMatrixOnesSpec(d: Record, k: string, s: Scheme, ids: seq<string>)
    requires SetMatrixOnes(d, k, s, ids).Ok?
    ensures SetMatrixOnes(d, k, s, ids).value.Keys == d.Keys + LabelledColumns(k, s, ids)
    ensures forall c :: c in SetMatrixOnes(d, k, s, ids).value ==>
              SetMatrixOnes(d, k, s, ids).value[c] == (if c in LabelledColumns(k, s, ids) then Str(MATRIX_1) else d[c])
  {
    if ids != [] {
      var n := |ids| - 1;
      SetMatrixOnesSpec(d, k, s, ids[..n]);
    }
  }

  /** Every labelled column is one of the configuration's matrix columns. */
  lemma {:induction false} LabelledColumnsAreMatrixColumns(k: string, s: Scheme, ids: seq<string>)
    ensures forall c :: c in LabelledColumns(k, s, ids) ==> c in MatrixColumns(k, s)
  {
    if ids != [] {
      var n := |ids| - 1;
      LabelledColumnsAreMatrixColumns(k, s, ids[..n]);
      var code := GetCodeWithId(s, ids[n]);
      if code.Some? {
        var j :| 0 <= j < |s.codes| && s.codes[j] == code.value;
        assert MatrixColumns(k, s)[j] == k + code.value.stringValue;
      }
    }
  }

  /** A SINGLE configuration with key k fails exactly when the coded field holds no label or
      a label whose id the scheme lacks; otherwise column k holds the string value of the
      scheme's code with the label's id (in a valid scheme, of the one such code), and no
      other entry changes. */
  lemma SingleColumnSpec(r: Record, cc: CodingConfiguration, d: Record)
    requires cc.codingMode == Single && cc.analysisFileKey.Some?
    ensures AddConfigColumns(r, cc, d).Ok? <==>
              CodeIdAt(r, cc.codedField).Ok? && GetCodeWithId(cc.codeScheme, r[cc.codedField].codeId).Some?
    ensures AddConfigColumns(r, cc, d).Ok? ==>
              var d' := AddConfigColumns(r, cc, d).value;
              var k := cc.analysisFileKey.value;
              && d'.Keys == d.Keys + {k}
              && (forall c :: c in d && c != k ==> d'[c] == d[c])
              && (forall code :: ValidScheme(cc.codeScheme) && code in cc.codeScheme.codes && code.codeId == r[cc.codedField].codeId ==>
                    d'[k] == Str(code.stringValue))
  {
    if AddConfigColumns(r, cc, d).Ok? {
      forall code | ValidScheme(cc.codeScheme) && code in cc.codeScheme.codes && code.codeId == r[cc.codedField].codeId
        ensures AddConfigColumns(r, cc, d).value[cc.analysisFileKey.value] == Str(code.stringValue)
      {
        GetCodeWithIdFindsUnique(cc.codeScheme, code);
      }
    }
  }

  /** A MULTIPLE configuration with key k fails exactly when the coded field holds neither a
      label list nor nothing, or a label whose id the scheme lacks. Otherwise the dict gains
      all of the configuration's matrix columns; a column is MATRIX_1 when some label's code
      has it, and otherwise keeps the value an earlier configuration gave it, or MATRIX_0;
      no other entry changes. */
  lemma MultipleColumnsSpec(r: Record, cc: CodingConfiguration, d: Record)
    requires cc.codingMode == Multiple && cc.analysisFileKey.Some?
    ensures AddConfigColumns(r, cc, d).Ok? <==>
              && LabelIds(r, cc.codedField).Ok?
              && forall i :: 0 <= i < |LabelIds(r, cc.codedField).value| ==>
                   GetCodeWithId(cc.codeScheme, LabelIds(r, cc.codedField).value[i]).Some?
    ensures AddConfigColumns(r, cc, d).Ok? ==>
              var d' := AddConfigColumns(r, cc, d).value;
              var k := cc.analysisFileKey.value;
              var cols := MatrixColumns(k, cc.codeScheme);
              var labelled := LabelledColumns(k, cc.codeScheme, LabelIds(r, cc.codedField).value);
              && d'.Keys == d.Keys + (set c | c in cols)
              && (forall c :: c in cols ==>
                    d'[c] == if c in labelled then Str(MATRIX_1) else Get(d, c, Str(MATRIX_0)))
              && (forall c :: c in d && c !in cols ==> d'[c] == d[c])
  {
    var k := cc.analysisFileKey.value;
    var ids := LabelIds(r, cc.codedField);
    if ids.Ok? {
      SetMatrixOnesOk(d, k, cc.codeScheme, ids.value);
      if SetMatrixOnes(d, k, cc.codeScheme, ids.value).Ok? {
        SetMatrixOnesSpec(d, k, cc.codeScheme, ids.value);
      }
      LabelledColumnsAreMatrixColumns(k, cc.codeScheme, ids.value);
    }
  }

  /** An absent coded field gives a MULTIPLE configuration MATRIX_0 in every column not set
      before. */
  lemma AbsentLabelsGiveZeros(r: Record, cc: CodingConfiguration, d: Record)
    requires cc.codingMode == Multiple && cc.analysisFileKey.Some? && cc.codedField !in r
    ensures AddConfigColumns(r, cc, d).Ok?
    ensures forall c :: c in MatrixColumns(cc.analysisFileKey.value, cc.codeScheme) && c !in d ==>
              AddConfigColumns(r, cc, d).value[c] == Str(MATRIX_0)
  {
    MultipleColumnsSpec(r, cc, d);
  }

  /** On success a configuration adds exactly its own columns to the dict. */
  lemma ConfigColumnsKeys(r: Record, cc: CodingConfiguration, d: Record)
    requires AddConfigColumns(r, cc, d).Ok?
    ensures AddConfigColumns(r, cc, d).value.Keys == d.Keys + (set c | c in ConfigColumns(cc))
    ensures forall c :: c in d && c !in ConfigColumns(cc) ==> AddConfigColumns(r, cc, d).value[c] == d[c]
  {
    if cc.analysisFileKey.Some? {
      if cc.codingMode == Single {
        SingleColumnSpec(r, cc, d);
      } else {
        MultipleColumnsSpec(r, cc, d);
      }
    }
  }

  /** Whether a configuration succeeds does not depend on the dict built so far, and on its
      own columns it writes what it would write into an empty dict, provided no earlier
      configuration wrote any of them. */
  lemma ConfigColumnsLocal(r: Record, cc: CodingConfiguration, d: Record)
    ensures AddConfigColumns(r, cc, d).Ok? == AddConfigColumns(r, cc, map[]).Ok?
    ensures AddConfigColumns(r, cc, d).Ok? && (forall c :: c in ConfigColumns(cc) ==> c !in d) ==>
              forall c :: c in ConfigColumns(cc) ==>
                AddConfigColumns(r, cc, d).value[c] == AddConfigColumns(r, cc, map[]).value[c]
  {
    if cc.analysisFileKey.Some? {
      if cc.codingMode == Single {
        SingleColumnSpec(r, cc, d);
        SingleColumnSpec(r, cc, map[]);
      } else {
        MultipleColumnsSpec(r, cc, d);
        MultipleColumnsSpec(r, cc, map[]);
      }
    }
  }

  /** No two configurations share a column. */
  predicate DisjointColumns(cfgs: seq<CodingConfiguration>) {
    forall i, j, c :: 0 <= i < j < |cfgs| && c in ConfigColumns(cfgs[i]) ==> c !in ConfigColumns(cfgs[j])
  }

  /** On success the analysis dict holds exactly the configurations' columns. */
  lemma {:induction false} AnalysisDictKeys(r: Record, cfgs: seq<CodingConfiguration>)
    requires AnalysisDict(r, cfgs).Ok?
    ensures AnalysisDict(r, cfgs).value.Keys == set c | c in ConfigsColumns(cfgs)
  {
    if cfgs != [] {
      var n := |cfgs| - 1;
      AnalysisDictKeys(r, cfgs[..n]);
      ConfigColumnsKeys(r, cfgs[n], AnalysisDict(r, cfgs[..n]).value);
    }
  }

  /** Building a record's analysis dict fails exactly when some configuration fails on the
      record by itself. */
  lemma {:induction false} AnalysisDictOk(r: Record, cfgs: seq<CodingConfiguration>)
    ensures AnalysisDict(r, cfgs).Ok? <==> forall i :: 0 <= i < |cfgs| ==> AddConfigColumns(r, cfgs[i], map[]).Ok?
  {
    if cfgs != [] {
      var n := |cfgs| - 1;
      assert forall i :: 0 <= i < n ==> cfgs[..n][i] == cfgs[i];
      AnalysisDictOk(r, cfgs[..n]);
      if AnalysisDict(r, cfgs[..n]).Ok? {
        ConfigColumnsLocal(r, cfgs[n], AnalysisDict(r, cfgs[..n]).value);
      }
    }
  }

  /** Without shared columns, the last configuration's columns are not yet in the dict the
      earlier ones build. */
  lemma LastColumnFresh(r: Record, cfgs: seq<CodingConfiguration>, c: string)
    requires cfgs != [] && DisjointColumns(cfgs) && AnalysisDict(r, cfgs[..|cfgs| - 1]).Ok?
    requires c in ConfigColumns(cfgs[|cfgs| - 1])
    ensures c !in AnalysisDict(r, cfgs[..|cfgs| - 1]).value
  {
    var n := |cfgs| - 1;
    AnalysisDictKeys(r, cfgs[..n]);
    ConfigsColumnsMembers(cfgs[..n]);
    assert forall i :: 0 <= i < n ==> cfgs[..n][i] == cfgs[i];
  }

  /** How a successful analysis dict unfolds on its last configuration. */
  lemma AnalysisDictLast(r: Record, cfgs: seq<CodingConfiguration>)
    requires cfgs != [] && AnalysisDict(r, cfgs).Ok?
    ensures AnalysisDict(r, cfgs[..|cfgs| - 1]).Ok?
    ensures AnalysisDict(r, cfgs) == AddConfigColumns(r, cfgs[|cfgs| - 1], AnalysisDict(r, cfgs[..|cfgs| - 1]).value)
  {
  }

  lemma DisjointPrefix(cfgs: seq<CodingConfiguration>, m: nat)
    requires m <= |cfgs| && DisjointColumns(cfgs)
    ensures DisjointColumns(cfgs[..m])
  {
    forall i, j, c | 0 <= i < j < m && c in ConfigColumns(cfgs[..m][i])
      ensures c !in ConfigColumns(cfgs[..m][j])
    {
      assert cfgs[..m][i] == cfgs[i] && cfgs[..m][j] == cfgs[j];
    }
  }

  /** When no two configurations share a column, each column of the analysis dict holds what
      its own configuration alone would write: the configurations do not interfere. */
  lemma {:induction false} AnalysisDictIndependent(r: Record, cfgs: seq<CodingConfiguration>)
    requires DisjointColumns(cfgs) && AnalysisDict(r, cfgs).Ok?
    ensures forall i, c :: 0 <= i < |cfgs| && c in ConfigColumns(cfgs[i]) ==>
              && AddConfigColumns(r, cfgs[i], map[]).Ok?
              && c in AnalysisDict(r, cfgs).value
              && c in AddConfigColumns(r, cfgs[i], map[]).value
              && AnalysisDict(r, cfgs).value[c] == AddConfigColumns(r, cfgs[i], map[]).value[c]
  {
    if cfgs != [] {
      var n := |cfgs| - 1;
      AnalysisDictLast(r, cfgs);
      DisjointPrefix(cfgs, n);
      AnalysisDictIndependent(r, cfgs[..n]);
      var mid := AnalysisDict(r, cfgs[..n]).value;
      var last := cfgs[n];
      var whole := AnalysisDict(r, cfgs).value;
      ConfigColumnsKeys(r, last, mid);
      forall c | c in ConfigColumns(last) ensures c !in mid {
        LastColumnFresh(r, cfgs, c);
      }
      ConfigColumnsLocal(r, last, mid);
      ConfigColumnsKeys(r, last, map[]);
      forall i, c | 0 <= i < |cfgs| && c in ConfigColumns(cfgs[i])
        ensures && AddConfigColumns(r, cfgs[i], map[]).Ok?
                && c in whole
                && c in AddConfigColumns(r, cfgs[i], map[]).value
                && whole[c] == AddConfigColumns(r, cfgs[i], map[]).value[c]
      {
        if i < n {
          assert cfgs[..n][i] == cfgs[i];
          assert c !in ConfigColumns(last);
        }
      }
    }
  }

  /** A column is among the configurations' columns exactly when some configuration has it. */
  lemma {:induction false} ConfigsColumnsMembers(cfgs: seq<CodingConfiguration>)
    ensures forall c :: c in ConfigsColumns(cfgs) <==> exists i :: 0 <= i < |cfgs| && c in ConfigColumns(cfgs[i])
  {
    if cfgs != [] {
      var n := |cfgs| - 1;
      ConfigsColumnsMembers(cfgs[..n]);
      assert forall i :: 0 <= i < n ==> cfgs[..n][i] == cfgs[i];
    }
  }

  /** A failure part-way through the label loop is the loop's result. */
  lemma {:induction false} SetMatrixOnesErrPersists(d: Record, k: string, s: Scheme, ids: seq<string>, m: nat)
    requires m <= |ids| && SetMatrixOnes(d, k, s, ids[..m]).Err?
    ensures SetMatrixOnes(d, k, s, ids) == SetMatrixOnes(d, k, s, ids[..m])
  {
    if m < |ids| {
      var n := |ids| - 1;
      assert ids[..n][..m] == ids[..m];
      SetMatrixOnesErrPersists(d, k, s, ids[..n], m);
      SetMatrixOnesLast(d, k, s, ids);
      assert SetMatrixOnes(d, k, s, ids[..n]).Err?;
      assert SetMatrixOnes(d, k, s, ids) == SetMatrixOnes(d, k, s, ids[..n]);
    } else {
      assert ids[..m] == ids;
    }
  }

  /** A failure part-way through the configurations is the dict's result. */
  lemma {:induction false} ColumnsErrPersists(r: Record, d: Record, cfgs: seq<CodingConfiguration>, m: nat)
    requires m <= |cfgs| && AddConfigsColumns(r, d, cfgs[..m]).Err?
    ensures AddConfigsColumns(r, d, cfgs) == AddConfigsColumns(r, d, cfgs[..m])
  {
    if m < |cfgs| {
      var n := |cfgs| - 1;
      assert cfgs[..n][..m] == cfgs[..m];
      ColumnsErrPersists(r, d, cfgs[..n], m);
      assert AddConfigsColumns(r, d, cfgs[..n]).Err?;
      assert AddConfigsColumns(r, d, cfgs) == AddConfigsColumns(r, d, cfgs[..n]);
    } else {
      assert cfgs[..m] == cfgs;
    }
  }

  /** The configurations of the plans before plan p, then plan p's, start the list of all
      configurations. */
  lemma {:induction false} AllConfigurationsPrefix(plans: seq<CodingPlan>, p: nat)
    requires p < |plans|
    ensures AllConfigurations(plans[..p]) + plans[p].codingConfigurations <= AllConfigurations(plans)
  {
    var n := |plans| - 1;
    if p == n {
      assert plans[..p] == plans[..n];
    } else {
      AllConfigurationsPrefix(plans[..n], p);
      assert plans[..n][..p] == plans[..p];
      assert plans[..n][p] == plans[p];
    }
  }

  /** The label loop of a MULTIPLE configuration (src/analysis_file.py:166-168). */
  method MarkLabels(d: Record, key: string, scheme: Scheme, ids: seq<string>) returns (res: Result<Record>)
    ensures res == SetMatrixOnes(d, key, scheme, ids)
  {
    var dict := d;
    for i := 0 to |ids|
      invariant SetMatrixOnes(d, key, scheme, ids[..i]) == Ok(dict)
    {
      assert ids[..i + 1][..i] == ids[..i];
      var code := GetCodeWithId(scheme, ids[i]);
      if code.None? {
        SetMatrixOnesErrPersists(d, key, scheme, ids, i + 1);
        return Err(KeyError(ids[i]));
      }
      dict := dict[key + code.value.stringValue := Str(MATRIX_1)];
    }
    assert ids[..|ids|] == ids;
    return Ok(dict);
  }

  /** The zero-fill loop of a MULTIPLE configuration (src/analysis_file.py:170-172). */
  method FillZeros(d: Record, cols: seq<string>) returns (dict: Record)
    ensures dict == FillMatrixZeros(d, cols)
  {
    dict := d;
    for i := 0 to |cols|
      invariant forall k :: k in dict <==> k in d || k in cols[..i]
      invariant forall k :: k in dict ==> dict[k] == if k in d then d[k] else Str(MATRIX_0)
    {
      assert cols[..i + 1][..i] == cols[..i];
      InDropLastOrLast(cols[..i + 1]);
      if cols[i] !in dict {
        dict := dict[cols[i] := Str(MATRIX_0)];
      }
    }
    assert cols[..|cols|] == cols;
    ghost var filled := FillMatrixZeros(d, cols);
    assert forall k :: k in dict <==> k in filled;
    assert forall k :: k in dict ==> dict[k] == filled[k];
  }

  /** The body of the inner loop of the materialisation for one configuration
      (src/analysis_file.py:154-172). */
  method AddOneConfig(r: Record, cc: CodingConfiguration, d: Record) returns (res: Result<Record>)
    ensures res == AddConfigColumns(r, cc, d)
  {
    if cc.analysisFileKey.None? {
      return Ok(d);
    }
    var key := cc.analysisFileKey.value;
    if cc.codingMode == Single {
      var id := CodeIdAt(r, cc.codedField);
      if id.Err? {
        return Err(id.error);
      }
      var code := GetCodeWithId(cc.codeScheme, id.value);
      if code.None? {
        return Err(KeyError(id.value));
      }
      return Ok(d[key := Str(code.value.stringValue)]);
    }
    var labels := LabelIds(r, cc.codedField);
    if labels.Err? {
      return Err(labels.error);
    }
    var ones := MarkLabels(d, key, cc.codeScheme, labels.value);
    if ones.Err? {
      return ones;
    }
    var dict := FillZeros(ones.value, MatrixColumns(key, cc.codeScheme));
    return Ok(dict);
  }

  /** Running the configurations of `a + b` is running those of `a`, then those of `b`. */
  lemma {:induction false} ColumnsAppend(r: Record, d: Record, a: seq<CodingConfiguration>, b: seq<CodingConfiguration>)
    requires AddConfigsColumns(r, d, a).Ok?
    ensures AddConfigsColumns(r, d, a + b) == AddConfigsColumns(r, AddConfigsColumns(r, d, a).value, b)
  {
    if b == [] {
      assert a + b == a;
    } else {
      var n := |b| - 1;
      assert (a + b)[..|a| + n] == a + b[..n];
      assert (a + b)[|a| + n] == b[n];
      ColumnsAppend(r, d, a, b[..n]);
    }
  }

  /** The inner loop of the materialisation over one plan's configurations. */
  method AddPlanColumns(r: Record, cfgs: seq<CodingConfiguration>, d: Record) returns (res: Result<Record>)
    ensures res == AddConfigsColumns(r, d, cfgs)
  {
    var dict := d;
    for c := 0 to |cfgs|
      invariant AddConfigsColumns(r, d, cfgs[..c]) == Ok(dict)
    {
      assert cfgs[..c + 1][..c] == cfgs[..c];
      var next := AddOneConfig(r, cfgs[c], dict);
      if next.Err? {
        ColumnsErrPersists(r, d, cfgs, c + 1);
        return next;
      }
      dict := next.value;
    }
    assert cfgs[..|cfgs|] == cfgs;
    return Ok(dict);
  }

  /** The analysis dict of one record, built by the nested loops over plans and their
      configurations (src/analysis_file.py:151-172). */
  method BuildAnalysisDict(r: Record, plans: seq<CodingPlan>) returns (res: Result<Record>)
    ensures res == AnalysisDict(r, AllConfigurations(plans))
  {
    var dict: Record := map[];
    for p := 0 to |plans|
      invariant AnalysisDict(r, AllConfigurations(plans[..p])) == Ok(dict)
    {
      var cfgs := plans[p].codingConfigurations;
      ghost var done := AllConfigurations(plans[..p]);
      assert plans[..p + 1][..p] == plans[..p];
      assert AllConfigurations(plans[..p + 1]) == done + cfgs;
      ColumnsAppend(r, map[], done, cfgs);
      var next := AddPlanColumns(r, cfgs, dict);
      if next.Err? {
        AllConfigurationsPrefix(plans, p);
        assert AllConfigurations(plans)[..|done + cfgs|] == done + cfgs;
        ColumnsErrPersists(r, map[], AllConfigurations(plans), |done + cfgs|);
        return next;
      }
      dict := next.value;
    }
    assert plans[..|plans|] == plans;
    return Ok(dict);
  }

  // ---------------------------------------------------------------------------------
  // Post-fold fix-ups of the NA and NC matrix columns

  predicate StartsWith(s: string, prefix: string) {
    |prefix| <= |s| && s[..|prefix|] == prefix
  }

  predicate EndsWith(s: string, suffix: string) {
    |suffix| <= |s| && s[|s| - |suffix|..] == suffix
  }

  /** A matrix key of the configuration with prefix `k`, other than a NOT_CODED column,
      that is set in the record. */
  predicate IsNonNcOne(r: Record, k: string, key: string) {
    StartsWith(key, k) && !EndsWith(key, NOT_CODED) && key in r && r[key] == Str(MATRIX_1)
  }

  /** The `contains_non_nc_key` loop: `key.startswith(None)` is a TypeError at the first
      matrix key when the configuration has no analysis key. */
  function ContainsNonNcKey(r: Record, k: Option<string>, matrixKeys: seq<string>): (res: Result<bool>)
    ensures res.Ok? <==> matrixKeys == [] || k.Some?
    ensures res.Ok? ==> (res.value <==> exists key :: key in matrixKeys && IsNonNcOne(r, KeyText(k), key))
  {
    if matrixKeys == [] then Ok(false)
    else if k.None? then Err(TypeError)
    else Ok(exists key :: key in matrixKeys && IsNonNcOne(r, k.value, key))
  }

  /** One pass of the innermost fix-up loop, for configuration `cc` of `plan`. The guard
      reads the plan's analysis key, not the configuration's. */
  function FixupStep(r: Record, plan: CodingPlan, cc: CodingConfiguration, matrixKeys: seq<string>): Result<Record> {
    if plan.analysisFileKey.None? || cc.codingMode != Multiple then Ok(r)
    else
      var k := KeyText(cc.analysisFileKey);
      var r1 := if Get(r, plan.rawField, Str("")) != Str("") then r[k + TRUE_MISSING := Str(MATRIX_0)] else r;
      var found :- ContainsNonNcKey(r1, cc.analysisFileKey, matrixKeys);
      Ok(if found then r1 else r1[k + NOT_CODED := Str(MATRIX_1)])
  }

  function FixupConfigs(r: Record, plan: CodingPlan, cfgs: seq<CodingConfiguration>, matrixKeys: seq<string>): Result<Record> {
    if cfgs == [] then Ok(r)
    else
      var r' :- FixupConfigs(r, plan, cfgs[..|cfgs| - 1], matrixKeys);
      FixupStep(r', plan, cfgs[|cfgs| - 1], matrixKeys)
  }

  /** The fix-ups of one folded record over all plans. */
  function FixupRecord(r: Record, plans: seq<CodingPlan>, matrixKeys: seq<string>): Result<Record> {
    if plans == [] then Ok(r)
    else
      var r' :- FixupRecord(r, plans[..|plans| - 1], matrixKeys);
      FixupConfigs(r', plans[|plans| - 1], plans[|plans| - 1].codingConfigurations, matrixKeys)
  }

  lemma NaColumnIsNotNcColumn(k: string)
    ensures k + TRUE_MISSING != k + NOT_CODED
    ensures EndsWith(k + NOT_CODED, NOT_CODED)
  {
    assert (k + TRUE_MISSING)[|k| + 1] != (k + NOT_CODED)[|k| + 1];
    assert (k + NOT_CODED)[|k + NOT_CODED| - 2..] == NOT_CODED;
  }

  /** One fix-up step. It changes nothing for a SINGLE configuration or when the plan has no
      analysis key. Otherwise, with k the configuration's key as an f-string renders it:
      it fails exactly when the configuration has no key and there are matrix keys; a
      non-empty raw field sets column k+NA to MATRIX_0, and with an empty or missing raw
      field k+NA keeps its value; column k+NC is set to MATRIX_1
      exactly when no other matrix key with prefix k is MATRIX_1, so afterwards some column
      of the configuration is set; and no other entry changes. */
  lemma FixupStepSpec(r: Record, plan: CodingPlan, cc: CodingConfiguration, matrixKeys: seq<string>)
    ensures plan.analysisFileKey.None? || cc.codingMode == Single ==> FixupStep(r, plan, cc, matrixKeys) == Ok(r)
    ensures FixupStep(r, plan, cc, matrixKeys).Ok? <==>
              plan.analysisFileKey.None? || cc.codingMode == Single || matrixKeys == [] || cc.analysisFileKey.Some?
    ensures plan.analysisFileKey.Some? && cc.codingMode == Multiple && FixupStep(r, plan, cc, matrixKeys).Ok? ==>
              var r' := FixupStep(r, plan, cc, matrixKeys).value;
              var k := KeyText(cc.analysisFileKey);
              var found := exists key :: key in matrixKeys && IsNonNcOne(r', k, key);
              && (Get(r, plan.rawField, Str("")) != Str("") ==> r'[k + TRUE_MISSING] == Str(MATRIX_0))
              && (Get(r, plan.rawField, Str("")) == Str("") ==> Get(r', k + TRUE_MISSING, Null) == Get(r, k + TRUE_MISSING, Null))
              && (!found ==> r'[k + NOT_CODED] == Str(MATRIX_1))
              && (found ==> Get(r', k + NOT_CODED, Null) == Get(r, k + NOT_CODED, Null))
              && (forall x :: x != k + TRUE_MISSING && x != k + NOT_CODED ==> Get(r', x, Null) == Get(r, x, Null))
              && r.Keys <= r'.Keys
  {
    if plan.analysisFileKey.Some? && cc.codingMode == Multiple && FixupStep(r, plan, cc, matrixKeys).Ok? {
      FixupStepColumns(r, plan, cc, matrixKeys);
    }
  }

  /** The columns one successful MULTIPLE fix-up step writes. */
  lemma FixupStepColumns(r: Record, plan: CodingPlan, cc: CodingConfiguration, matrixKeys: seq<string>)
    requires plan.analysisFileKey.Some? && cc.codingMode == Multiple && FixupStep(r, plan, cc, matrixKeys).Ok?
    ensures var r' := FixupStep(r, plan, cc, matrixKeys).value;
            var k := KeyText(cc.analysisFileKey);
            var found := exists key :: key in matrixKeys && IsNonNcOne(r', k, key);
            && (Get(r, plan.rawField, Str("")) != Str("") ==> r'[k + TRUE_MISSING] == Str(MATRIX_0))
            && (Get(r, plan.rawField, Str("")) == Str("") ==> Get(r', k + TRUE_MISSING, Null) == Get(r, k + TRUE_MISSING, Null))
            && (!found ==> r'[k + NOT_CODED] == Str(MATRIX_1))
            && (found ==> Get(r', k + NOT_CODED, Null) == Get(r, k + NOT_CODED, Null))
            && (forall x :: x != k + TRUE_MISSING && x != k + NOT_CODED ==> Get(r', x, Null) == Get(r, x, Null))
            && r.Keys <= r'.Keys
  {
    var k := KeyText(cc.analysisFileKey);
    NaColumnIsNotNcColumn(k);
    var r1 := if Get(r, plan.rawField, Str("")) != Str("") then r[k + TRUE_MISSING := Str(MATRIX_0)] else r;
    var r' := FixupStep(r, plan, cc, matrixKeys).value;
    forall key | key in matrixKeys ensures IsNonNcOne(r', k, key) <==> IsNonNcOne(r1, k, key) {
    }
    if Get(r, plan.rawField, Str("")) == Str("") {
      assert Get(r', k + TRUE_MISSING, Null) == Get(r1, k + TRUE_MISSING, Null);
    }
  }

  /** When a fix-up step can run without failing. */
  predicate FixupRuns(plan: CodingPlan, cc: CodingConfiguration, matrixKeys: seq<string>) {
    plan.analysisFileKey.None? || cc.codingMode == Single || matrixKeys == [] || cc.analysisFileKey.Some?
  }

  /** The NA and NC columns a plan's fix-ups may write. */
  predicate IsFixupColumn(plan: CodingPlan, x: string) {
    && plan.analysisFileKey.Some?
    && exists j :: 0 <= j < |plan.codingConfigurations| && plan.codingConfigurations[j].codingMode == Multiple
                   && (|| x == KeyText(plan.codingConfigurations[j].analysisFileKey) + TRUE_MISSING
                       || x == KeyText(plan.codingConfigurations[j].analysisFileKey) + NOT_CODED)
  }

  /** The fix-ups of one plan fail exactly when one of its steps cannot run; otherwise they
      change only the plan's NA and NC columns. */
  lemma {:induction false} FixupConfigsSpec(r: Record, plan: CodingPlan, cfgs: seq<CodingConfiguration>, matrixKeys: seq<string>)
    requires cfgs <= plan.codingConfigurations
    ensures FixupConfigs(r, plan, cfgs, matrixKeys).Ok? <==> forall j :: 0 <= j < |cfgs| ==> FixupRuns(plan, cfgs[j], matrixKeys)
    ensures FixupConfigs(r, plan, cfgs, matrixKeys).Err? ==> FixupConfigs(r, plan, cfgs, matrixKeys).error == TypeError
    ensures FixupConfigs(r, plan, cfgs, matrixKeys).Ok? ==>
              forall x :: !IsFixupColumn(plan, x) ==> Get(FixupConfigs(r, plan, cfgs, matrixKeys).value, x, Null) == Get(r, x, Null)
  {
    if cfgs != [] {
      var n := |cfgs| - 1;
      assert forall j :: 0 <= j < n ==> cfgs[..n][j] == cfgs[j];
      FixupConfigsSpec(r, plan, cfgs[..n], matrixKeys);
      var prefix := FixupConfigs(r, plan, cfgs[..n], matrixKeys);
      if prefix.Ok? {
        FixupStepSpec(prefix.value, plan, cfgs[n], matrixKeys);
        if FixupConfigs(r, plan, cfgs, matrixKeys).Ok? && plan.analysisFileKey.Some? && cfgs[n].codingMode == Multiple {
          assert plan.codingConfigurations[n] == cfgs[n];
          var k := KeyText(cfgs[n].analysisFileKey);
          assert IsFixupColumn(plan, k + TRUE_MISSING) && IsFixupColumn(plan, k + NOT_CODED);
        }
      }
    }
  }

  /** The fix-ups of a folded record fail exactly when some step cannot run; otherwise they
      change only the NA and NC columns of MULTIPLE configurations of plans with an
      analysis key. */
  lemma {:induction false} FixupRecordSpec(r: Record, plans: seq<CodingPlan>, matrixKeys: seq<string>)
    ensures FixupRecord(r, plans, matrixKeys).Ok? <==>
              forall i, j :: 0 <= i < |plans| && 0 <= j < |plans[i].codingConfigurations| ==>
                FixupRuns(plans[i], plans[i].codingConfigurations[j], matrixKeys)
    ensures FixupRecord(r, plans, matrixKeys).Err? ==> FixupRecord(r, plans, matrixKeys).error == TypeError
    ensures FixupRecord(r, plans, matrixKeys).Ok? ==>
              forall x :: (forall i :: 0 <= i < |plans| ==> !IsFixupColumn(plans[i], x)) ==>
                Get(FixupRecord(r, plans, matrixKeys).value, x, Null) == Get(r, x, Null)
  {
    if plans != [] {
      var n := |plans| - 1;
      assert forall i :: 0 <= i < n ==> plans[..n][i] == plans[i];
      FixupRecordSpec(r, plans[..n], matrixKeys);
      var prefix := FixupRecord(r, plans[..n], matrixKeys);
      if prefix.Ok? {
        FixupConfigsSpec(prefix.value, plans[n], plans[n].codingConfigurations, matrixKeys);
      }
    }
  }

  /** The `contains_non_nc_key` loop (src/analysis_file.py:207-211). */
  method ContainsNonNc(r: Record, k: Option<string>, matrixKeys: seq<string>) returns (res: Result<bool>)
    ensures res == ContainsNonNcKey(r, k, matrixKeys)
  {
    var contains := false;
    for j := 0 to |matrixKeys|
      invariant contains <==> exists key :: key in matrixKeys[..j] && IsNonNcOne(r, KeyText(k), key)
      invariant k.None? ==> j == 0
    {
      if k.None? {
        return Err(TypeError);
      }
      var key := matrixKeys[j];
      assert KeyText(k) == k.value;
      assert forall x :: x in matrixKeys[..j + 1] <==> x in matrixKeys[..j] || x == key by {
        assert matrixKeys[..j + 1] == matrixKeys[..j] + [key];
      }
      if StartsWith(key, k.value) && !EndsWith(key, NOT_CODED) && key in r && r[key] == Str(MATRIX_1) {
        contains := true;
        assert key in matrixKeys[..j + 1] && IsNonNcOne(r, KeyText(k), key);
      } else {
        assert !IsNonNcOne(r, KeyText(k), key);
      }
    }
    assert matrixKeys[..|matrixKeys|] == matrixKeys;
    if k.Some? {
      assert KeyText(k) == k.value;
      assert contains <==> exists key :: key in matrixKeys && IsNonNcOne(r, k.value, key);
    }
    return Ok(contains);
  }

  /** One pass of the innermost fix-up loop, on a folded record object. */
  method FixupStepOn(td: TracedData, plan: CodingPlan, cc: CodingConfiguration, matrixKeys: seq<string>) returns (ok: bool)
    modifies td
    ensures ok <==> FixupStep(old(td.view), plan, cc, matrixKeys).Ok?
    ensures ok ==> td.view == FixupStep(old(td.view), plan, cc, matrixKeys).value
  {
    if plan.analysisFileKey.None? || cc.codingMode != Multiple {
      return true;
    }
    var k := KeyText(cc.analysisFileKey);
    if Get(td.view, plan.rawField, Str("")) != Str("") {
      td.AppendData(map[k + TRUE_MISSING := Str(MATRIX_0)]);
      assert td.view == old(td.view)[k + TRUE_MISSING := Str(MATRIX_0)];
    }
    var found := ContainsNonNc(td.view, cc.analysisFileKey, matrixKeys);
    if found.Err? {
      return false;
    }
    if !found.value {
      ghost var r1 := td.view;
      td.AppendData(map[k + NOT_CODED := Str(MATRIX_1)]);
      assert td.view == r1[k + NOT_CODED := Str(MATRIX_1)];
    }
    return true;
  }

  /** Once a prefix of a plan's fix-up steps fails, the plan's fix-ups fail. */
  lemma {:induction false} FixupConfigsErrPersists(r: Record, plan: CodingPlan, cfgs: seq<CodingConfiguration>, matrixKeys: seq<string>, m: nat)
    requires m <= |cfgs| && FixupConfigs(r, plan, cfgs[..m], matrixKeys).Err?
    ensures FixupConfigs(r, plan, cfgs, matrixKeys).Err?
  {
    if m < |cfgs| {
      var n := |cfgs| - 1;
      assert cfgs[..n][..m] == cfgs[..m];
      FixupConfigsErrPersists(r, plan, cfgs[..n], matrixKeys, m);
      assert FixupConfigs(r, plan, cfgs[..n], matrixKeys).Err?;
    } else {
      assert cfgs[..m] == cfgs;
    }
  }

  /** Once the fix-ups of a prefix of the plans fail, the record's fix-ups fail. */
  lemma {:induction false} FixupRecordErrPersists(r: Record, plans: seq<CodingPlan>, matrixKeys: seq<string>, m: nat)
    requires m <= |plans| && FixupRecord(r, plans[..m], matrixKeys).Err?
    ensures FixupRecord(r, plans, matrixKeys).Err?
  {
    if m < |plans| {
      var n := |plans| - 1;
      assert plans[..n][..m] == plans[..m];
      FixupRecordErrPersists(r, plans[..n], matrixKeys, m);
      assert FixupRecord(r, plans[..n], matrixKeys).Err?;
    } else {
      assert plans[..m] == plans;
    }
  }

  /** The fix-up loops over plans and configurations, on one folded record
      (src/analysis_file.py:197-214). */
  method FixupOne(td: TracedData, plans: seq<CodingPlan>, matrixKeys: seq<string>) returns (ok: bool)
    modifies td
    ensures ok <==> FixupRecord(old(td.view), plans, matrixKeys).Ok?
    ensures ok ==> td.view == FixupRecord(old(td.view), plans, matrixKeys).value
  {
    for p := 0 to |plans|
      invariant FixupRecord(old(td.view), plans[..p], matrixKeys) == Ok(td.view)
    {
      var plan := plans[p];
      assert plans[..p + 1][..p] == plans[..p];
      ghost var start := td.view;
      var cfgs := plan.codingConfigurations;
      for c := 0 to |cfgs|
        invariant FixupConfigs(start, plan, cfgs[..c], matrixKeys) == Ok(td.view)
      {
        assert cfgs[..c + 1][..c] == cfgs[..c];
        ok := FixupStepOn(td, plan, cfgs[c], matrixKeys);
        if !ok {
          FixupConfigsErrPersists(start, plan, cfgs, matrixKeys, c + 1);
          assert cfgs == plans[..p + 1][p].codingConfigurations;
          FixupRecordErrPersists(old(td.view), plans, matrixKeys, p + 1);
          return;
        }
      }
      assert cfgs[..|cfgs|] == cfgs;
    }
    assert plans[..|plans|] == plans;
    return true;
  }

  // ---------------------------------------------------------------------------------
  // The passes over the records, and the order of the phases

  /** A record with its analysis dict appended. */
  function MaterialisedView(r: Record, cfgs: seq<CodingConfiguration>): Result<Record> {
    var d :- AnalysisDict(r, cfgs);
    Ok(r + d)
  }

  /** A message record after the phases before the fold: consent defaulted to FALSE, codes
      materialised, consent withdrawal determined. */
  function PreparedView(r: Record, cfgs: seq<CodingConfiguration>): Result<Record> {
    var materialised :- MaterialisedView(r[CONSENT_WITHDRAWN_KEY := Str(FALSE)], cfgs);
    MarkWithdrawn(materialised, cfgs, CONSENT_WITHDRAWN_KEY)
  }

  predicate AllPrepared(vs: seq<Record>, cfgs: seq<CodingConfiguration>) {
    forall i :: 0 <= i < |vs| ==> PreparedView(vs[i], cfgs).Ok?
  }

  function Prepared(vs: seq<Record>, cfgs: seq<CodingConfiguration>): (ps: seq<Record>)
    requires AllPrepared(vs, cfgs)
    ensures |ps| == |vs| && forall i :: 0 <= i < |vs| ==> ps[i] == PreparedView(vs[i], cfgs).value
  {
    seq(|vs|, i requires 0 <= i < |vs| => PreparedView(vs[i], cfgs).value)
  }

  /** After the phases before the fold, consent_withdrawn is TRUE exactly on the records
      with a stop code and FALSE on the others, provided no configuration has a column of
      that name. */
  lemma PreparedConsent(r: Record, cfgs: seq<CodingConfiguration>)
    requires CONSENT_WITHDRAWN_KEY !in ConfigsColumns(cfgs)
    requires PreparedView(r, cfgs).Ok?
    ensures var m := MaterialisedView(r[CONSENT_WITHDRAWN_KEY := Str(FALSE)], cfgs).value;
            PreparedView(r, cfgs).value[CONSENT_WITHDRAWN_KEY]
              == if TdHasStopCode(m, cfgs).value then Str(TRUE) else Str(FALSE)
  {
    AnalysisDictKeys(r[CONSENT_WITHDRAWN_KEY := Str(FALSE)], cfgs);
  }

  /** `td.append_data({consent_withdrawn_key: Codes.FALSE})` on every record
      (src/analysis_file.py:97-99). */
  method SetConsentDefault(data: seq<TracedData>)
    requires Distinct(data)
    modifies data
    ensures forall i :: 0 <= i < |data| ==> data[i].view == old(data[i].view)[CONSENT_WITHDRAWN_KEY := Str(FALSE)]
  {
    ghost var before := Views(data);
    for i := 0 to |data|
      invariant forall j :: 0 <= j < i ==> data[j].view == before[j][CONSENT_WITHDRAWN_KEY := Str(FALSE)]
      invariant forall j :: i <= j < |data| ==> data[j].view == before[j]
    {
      data[i].AppendData(map[CONSENT_WITHDRAWN_KEY := Str(FALSE)]);
      assert data[i].view == before[i][CONSENT_WITHDRAWN_KEY := Str(FALSE)];
    }
  }

  /** `after` is `before` with its analysis dict appended. */
  predicate MaterialisedAs(before: Record, after: Record, cfgs: seq<CodingConfiguration>) {
    var m := MaterialisedView(before, cfgs);
    m.Ok? && after == m.value
  }

  /** The materialisation loop over the records (src/analysis_file.py:150-174). It fails
      with the error of a record whose analysis dict cannot be built. */
  method Materialise(data: seq<TracedData>, plans: seq<CodingPlan>) returns (outcome: Result<()>)
    requires Distinct(data)
    modifies data
    ensures outcome.Ok? <==> forall i :: 0 <= i < |data| ==> MaterialisedView(old(data[i].view), AllConfigurations(plans)).Ok?
    ensures outcome.Err? ==> exists i :: 0 <= i < |data| && MaterialisedView(old(data[i].view), AllConfigurations(plans)) == Err(outcome.error)
    ensures outcome.Ok? ==> forall i :: 0 <= i < |data| ==> data[i].view == MaterialisedView(old(data[i].view), AllConfigurations(plans)).value
  {
    ghost var before := Views(data);
    for i := 0 to |data|
      invariant forall j :: 0 <= j < i ==> MaterialisedAs(before[j], data[j].view, AllConfigurations(plans))
      invariant forall j :: i <= j < |data| ==> data[j].view == before[j]
    {
      var td := data[i];
      var dict := BuildAnalysisDict(td.view, plans);
      if dict.Err? {
        return Err(dict.error);
      }
      td.AppendData(dict.value);
    }
    return Ok(());
  }

  /** `after` is the fix-up of `before`. */
  predicate FixedUpAs(before: Record, after: Record, plans: seq<CodingPlan>, matrixKeys: seq<string>) {
    var f := FixupRecord(before, plans, matrixKeys);
    f.Ok? && after == f.value
  }

  /** The fix-up loop over the folded records (src/analysis_file.py:196-214). */
  method FixupAll(folded: seq<TracedData>, plans: seq<CodingPlan>, matrixKeys: seq<string>) returns (ok: bool)
    requires Distinct(folded)
    modifies folded
    ensures ok <==> forall i :: 0 <= i < |folded| ==> FixupRecord(old(folded[i].view), plans, matrixKeys).Ok?
    ensures ok ==> forall i :: 0 <= i < |folded| ==> folded[i].view == FixupRecord(old(folded[i].view), plans, matrixKeys).value
  {
    ghost var before := Views(folded);
    for i := 0 to |folded|
      invariant forall j :: 0 <= j < i ==> FixedUpAs(before[j], folded[j].view, plans, matrixKeys)
      invariant forall j :: i <= j < |folded| ==> folded[j].view == before[j]
    {
      ok := FixupOne(folded[i], plans, matrixKeys);
      if !ok {
        return;
      }
    }
    return true;
  }

  /** One record of the fold's result: one of the records the fold was given, returned as
      the same object (`Kept`), or a new record holding a merged view (`Merged`). */
  datatype FoldOut = Kept(index: nat) | Merged(view: Record)

  /** The fold returns only records it was given, each at most once (one result per
      respondent, and each message belongs to one respondent). */
  predicate ValidFoldOuts(outs: seq<FoldOut>, n: nat) {
    && (forall j :: 0 <= j < |outs| && outs[j].Kept? ==> outs[j].index < n)
    && (forall j, k :: 0 <= j < k < |outs| && outs[j].Kept? && outs[k].Kept? ==> outs[j].index != outs[k].index)
  }

  /** The views of the fold's result, given the views `vs` of the records it was given. */
  function FoldedViews(outs: seq<FoldOut>, vs: seq<Record>): (r: seq<Record>)
    requires ValidFoldOuts(outs, |vs|)
    ensures |r| == |outs|
    ensures forall j :: 0 <= j < |outs| && outs[j].Kept? ==> r[j] == vs[outs[j].index]
    ensures forall j :: 0 <= j < |outs| && outs[j].Merged? ==> r[j] == outs[j].view
  {
    if outs == [] then []
    else
      assert ValidFoldOuts(outs[1..], |vs|);
      [if outs[0].Kept? then vs[outs[0].index] else outs[0].view] + FoldedViews(outs[1..], vs)
  }

  /** Whether the fold returned message `i` itself. */
  predicate KeptBy(outs: seq<FoldOut>, i: nat) {
    exists j :: 0 <= j < |outs| && outs[j] == Kept(i)
  }

  /** The record objects of the fold's result: a kept message is the message's own object,
      a merged view is a new object. */
  method FoldedRecords(outs: seq<FoldOut>, data: seq<TracedData>) returns (records: seq<TracedData>)
    requires Distinct(data) && ValidFoldOuts(outs, |data|)
    ensures |records| == |outs| && Distinct(records)
    ensures forall j :: 0 <= j < |outs| && outs[j].Kept? ==> records[j] == data[outs[j].index]
    ensures forall j :: 0 <= j < |outs| && outs[j].Merged? ==> fresh(records[j]) && records[j].view == outs[j].view
  {
    records := [];
    for j := 0 to |outs|
      invariant |records| == j && Distinct(records)
      invariant forall k :: 0 <= k < j && outs[k].Kept? ==> records[k] == data[outs[k].index]
      invariant forall k :: 0 <= k < j && outs[k].Merged? ==> fresh(records[k]) && records[k].view == outs[k].view
    {
      var td: TracedData;
      if outs[j].Kept? {
        td := data[outs[j].index];
      } else {
        td := new TracedData(outs[j].view);
      }
      records := records + [td];
    }
  }

  /** The two passes between the consent default and the fold: materialise the codes, then
      determine consent withdrawal (src/analysis_file.py:150-180). Started on records whose
      consent was defaulted from `v0`, they end as the prepared views of `v0`. */
  method MaterialiseAndMark(data: seq<TracedData>, plans: seq<CodingPlan>, ghost v0: seq<Record>)
    returns (outcome: Result<()>)
    requires Distinct(data) && |v0| == |data|
    requires forall i :: 0 <= i < |data| ==> data[i].view == v0[i][CONSENT_WITHDRAWN_KEY := Str(FALSE)]
    modifies data
    ensures outcome.Ok? <==> AllPrepared(v0, AllConfigurations(plans))
    ensures outcome.Err? ==> exists i :: 0 <= i < |v0| && PreparedView(v0[i], AllConfigurations(plans)) == Err(outcome.error)
    ensures outcome.Ok? ==> Views(data) == Prepared(v0, AllConfigurations(plans))
    ensures outcome.Ok? ==> forall i :: 0 <= i < |data| ==> data[i].view == PreparedView(v0[i], AllConfigurations(plans)).value
  {
    var cfgs := AllConfigurations(plans);
    ghost var v1 := Views(data);
    outcome := Materialise(data, plans);
    if outcome.Err? {
      ghost var i :| 0 <= i < |data| && MaterialisedView(v1[i], cfgs) == Err(outcome.error);
      assert v1[i] == v0[i][CONSENT_WITHDRAWN_KEY := Str(FALSE)];
      assert PreparedView(v0[i], cfgs) == Err(outcome.error);
      return;
    }
    ghost var v2 := Views(data);
    outcome := DetermineConsentWithdrawn(data, cfgs, CONSENT_WITHDRAWN_KEY);
    if outcome.Err? {
      ghost var i :| 0 <= i < |data| && MarkWithdrawn(v2[i], cfgs, CONSENT_WITHDRAWN_KEY) == Err(outcome.error);
      assert v1[i] == v0[i][CONSENT_WITHDRAWN_KEY := Str(FALSE)];
      assert v2[i] == MaterialisedView(v1[i], cfgs).value;
      assert PreparedView(v0[i], cfgs) == Err(outcome.error);
      return;
    }
    ghost var v3 := Views(data);
    forall i | 0 <= i < |data| ensures PreparedView(v0[i], cfgs) == Ok(v3[i]) {
      assert v1[i] == v0[i][CONSENT_WITHDRAWN_KEY := Str(FALSE)];
      assert v2[i] == MaterialisedView(v1[i], cfgs).value;
    }
  }

  /** The last phases of `generate` (src/analysis_file.py:193-217): fix up the folded
      records, then stop the message records, then stop the folded records. A folded record
      may be a message record itself; it is then fixed up, and stopped twice. */
  method FixupAndStop(data: seq<TracedData>, folded: seq<TracedData>, plans: seq<CodingPlan>,
                      matrixKeys: seq<string>, headers: seq<string>) returns (ok: bool)
    requires Distinct(data) && Distinct(folded)
    modifies data, folded
    ensures ok <==> forall j :: 0 <= j < |folded| ==> FixupRecord(old(folded[j].view), plans, matrixKeys).Ok?
    ensures ok ==> forall j :: 0 <= j < |folded| ==>
              folded[j].view == StoppedView(FixupRecord(old(folded[j].view), plans, matrixKeys).value, CONSENT_WITHDRAWN_KEY, headers)
    ensures ok ==> forall i :: 0 <= i < |data| && data[i] !in folded ==>
              data[i].view == StoppedView(old(data[i].view), CONSENT_WITHDRAWN_KEY, headers)
  {
    ghost var before := Views(folded);
    ok := FixupAll(folded, plans, matrixKeys);
    if !ok {
      return;
    }
    ghost var fixedUp := Views(folded);
    SetStopped(data, CONSENT_WITHDRAWN_KEY, headers);
    SetStopped(folded, CONSENT_WITHDRAWN_KEY, headers);
    forall j | 0 <= j < |folded|
      ensures folded[j].view == StoppedView(FixupRecord(before[j], plans, matrixKeys).value, CONSENT_WITHDRAWN_KEY, headers)
    {
      if folded[j] in data {
        SetStoppedIdempotent(fixedUp[j], CONSENT_WITHDRAWN_KEY, headers);
      }
    }
  }

  /** The fold's result as record objects, then fixed up and stopped with the message
      records (src/analysis_file.py:187-217, after the fold itself). */
  method FinishFolded(data: seq<TracedData>, outs: seq<FoldOut>, plans: seq<CodingPlan>,
                      matrixKeys: seq<string>, headers: seq<string>) returns (folded: seq<TracedData>, ok: bool)
    requires Distinct(data) && ValidFoldOuts(outs, |data|)
    modifies data
    ensures |folded| == |outs| && Distinct(folded)
    ensures forall j :: 0 <= j < |outs| && outs[j].Kept? ==> folded[j] == data[outs[j].index]
    ensures forall j :: 0 <= j < |outs| && outs[j].Merged? ==> fresh(folded[j])
    ensures ok <==> forall j :: 0 <= j < |outs| ==> FixupRecord(FoldedViews(outs, old(Views(data)))[j], plans, matrixKeys).Ok?
    ensures ok ==> forall j :: 0 <= j < |outs| ==>
              folded[j].view == StoppedView(FixupRecord(FoldedViews(outs, old(Views(data)))[j], plans, matrixKeys).value,
                                            CONSENT_WITHDRAWN_KEY, headers)
    ensures ok ==> forall i :: 0 <= i < |data| && !KeptBy(outs, i) ==>
              data[i].view == StoppedView(old(data[i].view), CONSENT_WITHDRAWN_KEY, headers)
  {
    ghost var vs := Views(data);
    folded := FoldedRecords(outs, data);
    ghost var before := Views(folded);
    assert before == FoldedViews(outs, vs);
    // A message record is among the folded records only when the fold returned it.
    forall i, j | 0 <= i < |data| && 0 <= j < |folded| && data[i] == folded[j]
      ensures outs[j] == Kept(i)
    {
      if outs[j].Merged? {
        assert false;
      }
    }
    ok := FixupAndStop(data, folded, plans, matrixKeys, headers);
    assert vs == old(Views(data));
    if !ok {
      ghost var j :| 0 <= j < |folded| && !FixupRecord(before[j], plans, matrixKeys).Ok?;
      assert FoldedViews(outs, vs)[j] == before[j];
    } else {
      forall j | 0 <= j < |outs|
        ensures FixupRecord(FoldedViews(outs, vs)[j], plans, matrixKeys).Ok?
      {
        assert FoldedViews(outs, vs)[j] == before[j];
      }
    }
    assert ok ==> forall j :: 0 <= j < |outs| ==> FixupRecord(FoldedViews(outs, old(Views(data)))[j], plans, matrixKeys).Ok?;
    assert !ok ==> exists j :: 0 <= j < |outs| && !FixupRecord(FoldedViews(outs, old(Views(data)))[j], plans, matrixKeys).Ok?;
  }

  /** When `generate` succeeds on records with views `vs`: the key lists can be built, every
      record can be prepared, the fold accepts the prepared views, and every folded record
      can be fixed up. */
  predicate GenerateSucceeds(vs: seq<Record>, plans: seq<CodingPlan>,
                             fold: (seq<Record>, KeyLists) -> Result<seq<FoldOut>>) {
    && KeyListsFor(plans).Ok?
    && AllPrepared(vs, AllConfigurations(plans))
    && var kl := KeyListsFor(plans).value;
       var prepared := Prepared(vs, AllConfigurations(plans));
       var folded := fold(prepared, kl);
       && folded.Ok?
       && ValidFoldOuts(folded.value, |prepared|)
       && forall j :: 0 <= j < |folded.value| ==>
            FixupRecord(FoldedViews(folded.value, prepared)[j], plans, kl.matrixKeys).Ok?
  }

  /** `AnalysisFile.generate` (src/analysis_file.py:91-227), with the fold as a parameter and
      without the CSV output. The fold is given the message records themselves (the copies
      the source makes first are never used), so a folded record may be a message record.
      On success it returns the folded records and the export columns (the CSV headers):
      every message record the fold did not return ends as its prepared view, stopped if
      withdrawn; every folded record, a returned message record included, ends as its
      prepared or merged view fixed up and then stopped. */
  method Generate(data: seq<TracedData>, plans: seq<CodingPlan>,
                  fold: (seq<Record>, KeyLists) -> Result<seq<FoldOut>>)
    returns (res: Result<seq<TracedData>>, headers: seq<string>)
    requires Distinct(data)
    requires forall vs, kl :: fold(vs, kl).Ok? ==> ValidFoldOuts(fold(vs, kl).value, |vs|)
    modifies data
    ensures res.Ok? <==> GenerateSucceeds(old(Views(data)), plans, fold)
    ensures KeyListsFor(plans).Err? ==> res == Err(KeyListsFor(plans).error)
    ensures res.Ok? ==> KeyListsFor(plans).Ok? && headers == KeyListsFor(plans).value.exportKeys
    ensures res.Ok? ==> AllPrepared(old(Views(data)), AllConfigurations(plans))
    ensures res.Ok? ==> fold(Prepared(old(Views(data)), AllConfigurations(plans)), KeyListsFor(plans).value).Ok?
    ensures res.Ok? ==>
              var outs := fold(Prepared(old(Views(data)), AllConfigurations(plans)), KeyListsFor(plans).value).value;
              forall i :: 0 <= i < |data| && !KeptBy(outs, i) ==>
                data[i].view == StoppedView(PreparedView(old(data[i].view), AllConfigurations(plans)).value, CONSENT_WITHDRAWN_KEY, headers)
    ensures res.Ok? ==>
              var prepared := Prepared(old(Views(data)), AllConfigurations(plans));
              var outs := fold(prepared, KeyListsFor(plans).value).value;
              && |res.value| == |outs|
              && Distinct(res.value)
              && (forall j :: 0 <= j < |outs| && outs[j].Kept? ==> res.value[j] == data[outs[j].index])
              && (forall j :: 0 <= j < |outs| && outs[j].Merged? ==> fresh(res.value[j]))
              && (forall j :: 0 <= j < |outs| ==>
                    res.value[j].view == StoppedView(FixupRecord(FoldedViews(outs, prepared)[j], plans, KeyListsFor(plans).value.matrixKeys).value,
                                                     CONSENT_WITHDRAWN_KEY, headers))
  {
    ghost var v0 := Views(data);
    SetConsentDefault(data);

    var keyLists := BuildKeyLists(plans);
    if keyLists.Err? {
      return Err(keyLists.error), [];
    }
    var kl := keyLists.value;
    headers := kl.exportKeys;

    var prepared := MaterialiseAndMark(data, plans, v0);
    if prepared.Err? {
      return Err(prepared.error), headers;
    }

    ghost var pv := Views(data);
    assert pv == Prepared(v0, AllConfigurations(plans));
    var outs := fold(Views(data), kl);
    if outs.Err? {
      return Err(outs.error), headers;
    }
    var folded, fixedUp := FinishFolded(data, outs.value, plans, kl.matrixKeys, headers);
    if !fixedUp {
      // The fix-ups fail only with a TypeError (FixupRecordSpec).
      return Err(TypeError), headers;
    }
    assert GenerateSucceeds(v0, plans, fold);
    return Ok(folded), headers;
  }
}
