/** Applying manual codes: after the labels coded by hand are imported, every coded field
    that is still unlabelled for a structural reason is imputed. A record with no answer
    to a plan's question gets TRUE_MISSING, an empty answer NOT_CODED, a noise message
    NOT_CODED on each RQA field it lacks, and a plan whose answer the coders marked as
    a coding error gets CODING_ERROR on every field, whatever was there before. */
module ApplyManualCodes {
  import opened Wrappers
  import opened CodeSchemes
  import opened TracedDataModel
  import opened PipelineConfiguration
  import opened Sequences

  // ---------------------------------------------------------------------------------
  // Labels written for a control code

  /** A label as it is stored: bare for SINGLE, a one-element list for MULTIPLE. */
  function LabelValue(mode: CodingMode, codeId: string): Value {
    if mode == Single then Coded(codeId) else CodedList([codeId])
  }

  /** The label of the code of `cc`'s scheme carrying `control`; a KeyError when the
      scheme has no such code. */
  function ControlLabel(cc: CodingConfiguration, control: string): (res: Result<Value>)
    ensures res.Ok? <==> GetCodeWithControlCode(cc.codeScheme, control).Some?
    ensures res.Ok? ==> exists code :: code in cc.codeScheme.codes && code.controlCode == Some(control)
                                       && res.value == LabelValue(cc.codingMode, code.codeId)
  {
    match GetCodeWithControlCode(cc.codeScheme, control)
    case None => Err(KeyError(control))
    case Some(code) => Ok(LabelValue(cc.codingMode, code.codeId))
  }

  /** The inner loop of every pass: each configuration whose coded field is not in
      `exclude` gets the label for `control`, in configuration order. */
  function WriteLabels(d: Record, cfgs: seq<CodingConfiguration>, control: string, exclude: set<string>): Result<Record>
  {
    if cfgs == [] then Ok(d)
    else
      var prev :- WriteLabels(d, cfgs[..|cfgs| - 1], control, exclude);
      var cc := cfgs[|cfgs| - 1];
      if cc.codedField in exclude then Ok(prev)
      else
        var written :- ControlLabel(cc, control);
        Ok(prev[cc.codedField := written])
  }

  /** The coded fields `WriteLabels` writes. */
  function WrittenFields(cfgs: seq<CodingConfiguration>, exclude: set<string>): set<string>
  {
    if cfgs == [] then {}
    else
      var cc := cfgs[|cfgs| - 1];
      WrittenFields(cfgs[..|cfgs| - 1], exclude) + (if cc.codedField in exclude then {} else {cc.codedField})
  }

  lemma {:induction false} WrittenFieldsMembers(cfgs: seq<CodingConfiguration>, exclude: set<string>, k: string)
    ensures k in WrittenFields(cfgs, exclude) <==> k !in exclude && exists cc :: cc in cfgs && cc.codedField == k
  {
    if cfgs != [] {
      var n := |cfgs| - 1;
      WrittenFieldsMembers(cfgs[..n], exclude, k);
      InDropLastOrLast(cfgs);
    }
  }

  /** `WriteLabels` succeeds iff every configuration it writes has the control code. */
  lemma {:induction false} WriteLabelsOk(d: Record, cfgs: seq<CodingConfiguration>, control: string, exclude: set<string>)
    ensures WriteLabels(d, cfgs, control, exclude).Ok? <==>
              forall cc :: cc in cfgs && cc.codedField !in exclude ==> GetCodeWithControlCode(cc.codeScheme, control).Some?
  {
    if cfgs != [] {
      var n := |cfgs| - 1;
      WriteLabelsOk(d, cfgs[..n], control, exclude);
      InDropLastOrLast(cfgs);
    }
  }

  /** A key `WriteLabels` does not write keeps its presence and value. */
  lemma {:induction false} WriteLabelsFrame(d: Record, cfgs: seq<CodingConfiguration>, control: string, exclude: set<string>, k: string)
    requires WriteLabels(d, cfgs, control, exclude).Ok?
    requires k !in WrittenFields(cfgs, exclude)
    ensures k in WriteLabels(d, cfgs, control, exclude).value <==> k in d
    ensures k in d ==> WriteLabels(d, cfgs, control, exclude).value[k] == d[k]
  {
    if cfgs != [] {
      WriteLabelsFrame(d, cfgs[..|cfgs| - 1], control, exclude, k);
    }
  }

  /** One step of `WriteLabels`: the last configuration writes its label unless its field
      is excluded. */
  lemma WriteLabelsLast(d: Record, cfgs: seq<CodingConfiguration>, control: string, exclude: set<string>)
    requires cfgs != []
    ensures var prev := WriteLabels(d, cfgs[..|cfgs| - 1], control, exclude);
            var cc := cfgs[|cfgs| - 1];
            WriteLabels(d, cfgs, control, exclude) ==
              if prev.Err? then prev
              else if cc.codedField in exclude then prev
              else if ControlLabel(cc, control).Err? then Err(ControlLabel(cc, control).error)
              else Ok(prev.value[cc.codedField := ControlLabel(cc, control).value])
  {
  }

  /** A written key holds the label of the last configuration naming it. */
  lemma {:induction false} WriteLabelsValue(d: Record, cfgs: seq<CodingConfiguration>, control: string, exclude: set<string>,
                                           cc: CodingConfiguration)
    requires WriteLabels(d, cfgs, control, exclude).Ok?
    requires cc in cfgs && cc.codedField !in exclude
    requires forall c :: c in cfgs && c.codedField == cc.codedField ==> c == cc
    ensures ControlLabel(cc, control).Ok?
    ensures cc.codedField in WriteLabels(d, cfgs, control, exclude).value
    ensures WriteLabels(d, cfgs, control, exclude).value[cc.codedField] == ControlLabel(cc, control).value
  {
    var n := |cfgs| - 1;
    WriteLabelsLast(d, cfgs, control, exclude);
    if cfgs[n] != cc {
      InDropLastOrLast(cfgs);
      WriteLabelsValue(d, cfgs[..n], control, exclude, cc);
    }
  }

  /** A failure in a prefix of the configurations is the failure of the whole loop. */
  lemma {:induction false} WriteLabelsErrPersists(d: Record, cfgs: seq<CodingConfiguration>, control: string,
                                                 exclude: set<string>, m: nat)
    requires m <= |cfgs| && WriteLabels(d, cfgs[..m], control, exclude).Err?
    ensures WriteLabels(d, cfgs, control, exclude) == WriteLabels(d, cfgs[..m], control, exclude)
  {
    if m < |cfgs| {
      var n := |cfgs| - 1;
      assert cfgs[..n][..m] == cfgs[..m];
      WriteLabelsErrPersists(d, cfgs[..n], control, exclude, m);
      WriteLabelsLast(d, cfgs, control, exclude);
      assert WriteLabels(d, cfgs[..n], control, exclude).Err?;
      assert WriteLabels(d, cfgs, control, exclude) == WriteLabels(d, cfgs[..n], control, exclude);
    } else {
      assert cfgs[..m] == cfgs;
    }
  }

  // ---------------------------------------------------------------------------------
  // The three imputation passes

  /** The key of the "WS - correct dataset" label of a plan's raw field. */
  function WsKey(plan: CodingPlan): string {
    plan.rawField + "_WS_correct_dataset"
  }

  /** The missing-data pass, the noise pass and the coding-error pass; the last reads the
      WS_CORRECT_DATASET scheme. */
  datatype Pass = MissingPass | NoisePass | CodingErrorPass(wsCorrectDataset: Scheme)

  /** Whether a message was classified as noise: `td.get("noise", False)`. */
  predicate IsNoise(r: Record) {
    Truthy(Get(r, "noise", Flag(false)))
  }

  /** The control code a pass writes to the coded fields of `plan` in record `r`, or None
      when the pass leaves the plan alone. */
  function Decide(pass: Pass, r: Record, plan: CodingPlan): (res: Result<Option<string>>)
    ensures pass == MissingPass ==>
              res == Ok(if plan.rawField !in r then Some(TRUE_MISSING)
                        else if r[plan.rawField] == Str("") then Some(NOT_CODED) else None)
    ensures pass == NoisePass ==> res == Ok(Some(NOT_CODED))
    ensures pass.CodingErrorPass? && res.Ok? && res.value.Some? ==>
              && res.value.value == CODING_ERROR
              && CodeIdAt(r, WsKey(plan)).Ok?
              && GetCodeWithControlCode(pass.wsCorrectDataset, CODING_ERROR).Some?
              && CodeIdAt(r, WsKey(plan)).value == GetCodeWithControlCode(pass.wsCorrectDataset, CODING_ERROR).value.codeId
    ensures pass.CodingErrorPass? && WsKey(plan) !in r ==> res == Ok(None)
    ensures pass.CodingErrorPass? && CodeIdAt(r, WsKey(plan)).Ok? &&
            GetCodeWithControlCode(pass.wsCorrectDataset, CODING_ERROR).Some? ==>
              res == Ok(if CodeIdAt(r, WsKey(plan)).value == GetCodeWithControlCode(pass.wsCorrectDataset, CODING_ERROR).value.codeId
                        then Some(CODING_ERROR) else None)
  {
    match pass
    case MissingPass =>
      if plan.rawField !in r then Ok(Some(TRUE_MISSING))
      else if r[plan.rawField] == Str("") then Ok(Some(NOT_CODED))
      else Ok(None)
    case NoisePass => Ok(Some(NOT_CODED))
    case CodingErrorPass(ws) =>
      if WsKey(plan) !in r then Ok(None)
      else
        var id :- CodeIdAt(r, WsKey(plan));
        match GetCodeWithControlCode(ws, CODING_ERROR)
        case None => Err(KeyError(CODING_ERROR))
        case Some(ce) => Ok(if id == ce.codeId then Some(CODING_ERROR) else None)
  }

  /** The noise pass only fills coded fields the record does not have yet. */
  function Excluded(pass: Pass, r: Record): set<string> {
    if pass == NoisePass then r.Keys else {}
  }

  /** Whether `pass` writes labels to the coded fields of `plan` in `r`. */
  predicate Fires(pass: Pass, r: Record, plan: CodingPlan) {
    Decide(pass, r, plan).Ok? && Decide(pass, r, plan).value.Some?
  }

  /** The dict a pass builds for one record (`missing_dict`, `nc_dict`,
      `coding_error_dict`): the plans are visited in order and a later plan's label
      replaces an earlier one's for the same field. */
  function PassDict(pass: Pass, r: Record, plans: seq<CodingPlan>): Result<Record>
  {
    if plans == [] then Ok(map[])
    else
      var prev :- PassDict(pass, r, plans[..|plans| - 1]);
      var plan := plans[|plans| - 1];
      var control :- Decide(pass, r, plan);
      if control.None? then Ok(prev)
      else WriteLabels(prev, plan.codingConfigurations, control.value, Excluded(pass, r))
  }

  /** One record after a pass: the dict is appended, except that the noise pass leaves a
      record that is not noise alone. */
  function PassView(pass: Pass, r: Record, plans: seq<CodingPlan>): Result<Record>
  {
    if pass == NoisePass && !IsNoise(r) then Ok(r)
    else
      var d :- PassDict(pass, r, plans);
      Ok(r + d)
  }

  /** A coded field belongs to one configuration of one plan. */
  predicate UniqueCodedFields(plans: seq<CodingPlan>) {
    forall p1, p2, c1, c2 ::
      (p1 in plans && p2 in plans && c1 in p1.codingConfigurations && c2 in p2.codingConfigurations &&
       c1.codedField == c2.codedField) ==> p1 == p2 && c1 == c2
  }

  lemma UniquePrefix(plans: seq<CodingPlan>, m: nat)
    requires m <= |plans| && UniqueCodedFields(plans)
    ensures UniqueCodedFields(plans[..m])
  {
    assert forall p :: p in plans[..m] ==> p in plans;
  }

  /** A pass fails iff deciding some plan fails, or a configuration it writes lacks the
      control code. */
  lemma {:induction false} PassDictOk(pass: Pass, r: Record, plans: seq<CodingPlan>)
    ensures PassDict(pass, r, plans).Ok? <==>
              forall p :: p in plans ==>
                && Decide(pass, r, p).Ok?
                && (Fires(pass, r, p) ==>
                      forall cc :: cc in p.codingConfigurations && cc.codedField !in Excluded(pass, r) ==>
                        GetCodeWithControlCode(cc.codeScheme, Decide(pass, r, p).value.value).Some?)
  {
    if plans != [] {
      var n := |plans| - 1;
      PassDictOk(pass, r, plans[..n]);
      InDropLastOrLast(plans);
      var prev := PassDict(pass, r, plans[..n]);
      if prev.Ok? && Fires(pass, r, plans[n]) {
        WriteLabelsOk(prev.value, plans[n].codingConfigurations, Decide(pass, r, plans[n]).value.value, Excluded(pass, r));
      }
    }
  }

  /** A key no firing plan writes is not in the dict. */
  lemma {:induction false} PassDictFrame(pass: Pass, r: Record, plans: seq<CodingPlan>, k: string)
    requires PassDict(pass, r, plans).Ok?
    requires forall p, cc :: p in plans && cc in p.codingConfigurations && cc.codedField == k ==>
               !Fires(pass, r, p) || k in Excluded(pass, r)
    ensures k !in PassDict(pass, r, plans).value
  {
    if plans != [] {
      var n := |plans| - 1;
      InDropLastOrLast(plans);
      PassDictFrame(pass, r, plans[..n], k);
      var prev := PassDict(pass, r, plans[..n]).value;
      if Fires(pass, r, plans[n]) {
        var cfgs := plans[n].codingConfigurations;
        WrittenFieldsMembers(cfgs, Excluded(pass, r), k);
        WriteLabelsFrame(prev, cfgs, Decide(pass, r, plans[n]).value.value, Excluded(pass, r), k);
      }
    }
  }

  /** Every key of the dict is a coded field of a firing plan. */
  lemma {:induction false} PassDictKeys(pass: Pass, r: Record, plans: seq<CodingPlan>, k: string)
    requires PassDict(pass, r, plans).Ok? && k in PassDict(pass, r, plans).value
    ensures k !in Excluded(pass, r)
    ensures exists p, cc :: p in plans && cc in p.codingConfigurations && cc.codedField == k && Fires(pass, r, p)
  {
    if forall p, cc :: p in plans && cc in p.codingConfigurations && cc.codedField == k ==>
         !Fires(pass, r, p) || k in Excluded(pass, r) {
      PassDictFrame(pass, r, plans, k);
    }
    if k in Excluded(pass, r) {
      PassDictFrame(pass, r, plans, k);
    }
  }

  /** One step of `PassDict`: the dict of all plans is that of the earlier plans, with the
      last plan's labels written when it fires. */
  lemma PassDictLast(pass: Pass, r: Record, plans: seq<CodingPlan>)
    requires plans != []
    ensures var prev := PassDict(pass, r, plans[..|plans| - 1]);
            var last := plans[|plans| - 1];
            PassDict(pass, r, plans) ==
              if prev.Err? then prev
              else if Decide(pass, r, last).Err? then Err(Decide(pass, r, last).error)
              else if !Fires(pass, r, last) then prev
              else WriteLabels(prev.value, last.codingConfigurations, Decide(pass, r, last).value.value, Excluded(pass, r))
  {
  }

  /** Within one plan of a plan list with unique coded fields, only `cc` codes into its field. */
  lemma UniqueWithinPlan(plans: seq<CodingPlan>, p: CodingPlan, cc: CodingConfiguration)
    requires UniqueCodedFields(plans) && p in plans && cc in p.codingConfigurations
    ensures forall c :: c in p.codingConfigurations && c.codedField == cc.codedField ==> c == cc
  {
  }

  /** Another plan of a plan list with unique coded fields does not code into `cc`'s field. */
  lemma UniqueAcrossPlans(plans: seq<CodingPlan>, p: CodingPlan, cc: CodingConfiguration, q: CodingPlan)
    requires UniqueCodedFields(plans) && p in plans && cc in p.codingConfigurations && q in plans && q != p
    ensures forall c :: c in q.codingConfigurations ==> c.codedField != cc.codedField
  {
  }

  /** With unique coded fields, each coded field of a firing plan holds that plan's label. */
  lemma {:induction false} PassDictValue(pass: Pass, r: Record, plans: seq<CodingPlan>, p: CodingPlan, cc: CodingConfiguration)
    requires UniqueCodedFields(plans)
    requires PassDict(pass, r, plans).Ok?
    requires p in plans && cc in p.codingConfigurations && Fires(pass, r, p) && cc.codedField !in Excluded(pass, r)
    ensures ControlLabel(cc, Decide(pass, r, p).value.value).Ok?
    ensures cc.codedField in PassDict(pass, r, plans).value
    ensures PassDict(pass, r, plans).value[cc.codedField] == ControlLabel(cc, Decide(pass, r, p).value.value).value
  {
    var n := |plans| - 1;
    PassDictLast(pass, r, plans);
    if plans[n] == p {
      UniqueWithinPlan(plans, p, cc);
      WriteLabelsValue(PassDict(pass, r, plans[..n]).value, p.codingConfigurations, Decide(pass, r, p).value.value,
                       Excluded(pass, r), cc);
    } else {
      InDropLastOrLast(plans);
      UniquePrefix(plans, n);
      UniqueAcrossPlans(plans, p, cc, plans[n]);
      PassDictValue(pass, r, plans[..n], p, cc);
      PassDictValueKept(pass, r, plans, cc.codedField);
    }
  }

  /** A field the last plan does not code into keeps its value from the earlier plans. */
  lemma PassDictValueKept(pass: Pass, r: Record, plans: seq<CodingPlan>, k: string)
    requires plans != [] && PassDict(pass, r, plans).Ok?
    requires forall c :: c in plans[|plans| - 1].codingConfigurations ==> c.codedField != k
    requires k in PassDict(pass, r, plans[..|plans| - 1]).value
    ensures k in PassDict(pass, r, plans).value
    ensures PassDict(pass, r, plans).value[k] == PassDict(pass, r, plans[..|plans| - 1]).value[k]
  {
    var last := plans[|plans| - 1];
    PassDictLast(pass, r, plans);
    if Fires(pass, r, last) {
      var prev := PassDict(pass, r, plans[..|plans| - 1]).value;
      WrittenFieldsMembers(last.codingConfigurations, Excluded(pass, r), k);
      WriteLabelsFrame(prev, last.codingConfigurations, Decide(pass, r, last).value.value, Excluded(pass, r), k);
    }
  }

  /** A failure in a prefix of the plans is the failure of the whole pass. */
  lemma {:induction false} PassDictErrPersists(pass: Pass, r: Record, plans: seq<CodingPlan>, m: nat)
    requires m <= |plans| && PassDict(pass, r, plans[..m]).Err?
    ensures PassDict(pass, r, plans) == PassDict(pass, r, plans[..m])
  {
    if m < |plans| {
      var n := |plans| - 1;
      assert plans[..n][..m] == plans[..m];
      PassDictErrPersists(pass, r, plans[..n], m);
      PassDictLast(pass, r, plans);
      assert PassDict(pass, r, plans[..n]).Err?;
      assert PassDict(pass, r, plans) == PassDict(pass, r, plans[..n]);
    } else {
      assert plans[..m] == plans;
      assert PassDict(pass, r, plans) == PassDict(pass, r, plans[..m]);
    }
  }

  // ---------------------------------------------------------------------------------
  // What each pass promises (src/apply_manual_codes.py:66-99 and 16-42)

  /** The missing-data pass fails iff a plan whose answer is absent has a configuration
      whose scheme lacks TRUE_MISSING, or one whose answer is empty lacks NOT_CODED. */
  lemma MissingPassOk(r: Record, plans: seq<CodingPlan>)
    ensures PassView(MissingPass, r, plans).Ok? <==>
              forall p, cc :: p in plans && cc in p.codingConfigurations ==>
                && (p.rawField !in r ==> GetCodeWithControlCode(cc.codeScheme, TRUE_MISSING).Some?)
                && (p.rawField in r && r[p.rawField] == Str("") ==> GetCodeWithControlCode(cc.codeScheme, NOT_CODED).Some?)
  {
    PassDictOk(MissingPass, r, plans);
  }

  /** A plan the record has no answer for gets TRUE_MISSING on every coded field. */
  lemma MissingAnswerGetsTrueMissing(r: Record, plans: seq<CodingPlan>, p: CodingPlan, cc: CodingConfiguration)
    requires UniqueCodedFields(plans) && PassView(MissingPass, r, plans).Ok?
    requires p in plans && cc in p.codingConfigurations && p.rawField !in r
    ensures ControlLabel(cc, TRUE_MISSING).Ok?
    ensures cc.codedField in PassView(MissingPass, r, plans).value
    ensures PassView(MissingPass, r, plans).value[cc.codedField] == ControlLabel(cc, TRUE_MISSING).value
  {
    PassDictValue(MissingPass, r, plans, p, cc);
  }

  /** A plan whose answer is the empty string gets NOT_CODED on every coded field. */
  lemma EmptyAnswerGetsNotCoded(r: Record, plans: seq<CodingPlan>, p: CodingPlan, cc: CodingConfiguration)
    requires UniqueCodedFields(plans) && PassView(MissingPass, r, plans).Ok?
    requires p in plans && cc in p.codingConfigurations && p.rawField in r && r[p.rawField] == Str("")
    ensures ControlLabel(cc, NOT_CODED).Ok?
    ensures cc.codedField in PassView(MissingPass, r, plans).value
    ensures PassView(MissingPass, r, plans).value[cc.codedField] == ControlLabel(cc, NOT_CODED).value
  {
    PassDictValue(MissingPass, r, plans, p, cc);
  }

  /** A plan with a non-empty answer keeps its coded fields as they were. */
  lemma AnsweredPlanUnchanged(r: Record, plans: seq<CodingPlan>, p: CodingPlan, cc: CodingConfiguration)
    requires UniqueCodedFields(plans) && PassView(MissingPass, r, plans).Ok?
    requires p in plans && cc in p.codingConfigurations && p.rawField in r && r[p.rawField] != Str("")
    ensures cc.codedField in PassView(MissingPass, r, plans).value <==> cc.codedField in r
    ensures cc.codedField in r ==> PassView(MissingPass, r, plans).value[cc.codedField] == r[cc.codedField]
  {
    PassDictFrame(MissingPass, r, plans, cc.codedField);
  }

  /** The missing-data pass changes only coded fields of plans whose answer is absent or
      empty. */
  lemma MissingPassChangesOnlyUnanswered(r: Record, plans: seq<CodingPlan>, k: string)
    requires PassView(MissingPass, r, plans).Ok?
    requires k in PassView(MissingPass, r, plans).value
    requires k !in r || PassView(MissingPass, r, plans).value[k] != r[k]
    ensures exists p, cc :: p in plans && cc in p.codingConfigurations && cc.codedField == k &&
                            (p.rawField !in r || r[p.rawField] == Str(""))
  {
    PassDictKeys(MissingPass, r, plans, k);
  }

  /** The noise pass: a record that is not noise is left alone; otherwise no key the record
      has changes, and every key it gains is a coded field of an RQA plan. */
  lemma NoisePassFrame(r: Record, rqaPlans: seq<CodingPlan>)
    ensures !IsNoise(r) ==> PassView(NoisePass, r, rqaPlans) == Ok(r)
    ensures PassView(NoisePass, r, rqaPlans).Ok? ==>
              forall k :: k in r ==> k in PassView(NoisePass, r, rqaPlans).value && PassView(NoisePass, r, rqaPlans).value[k] == r[k]
    ensures PassView(NoisePass, r, rqaPlans).Ok? ==>
              forall k :: k in PassView(NoisePass, r, rqaPlans).value && k !in r ==>
                IsNoise(r) && exists p, cc :: p in rqaPlans && cc in p.codingConfigurations && cc.codedField == k
  {
    if IsNoise(r) && PassView(NoisePass, r, rqaPlans).Ok? {
      var d := PassDict(NoisePass, r, rqaPlans).value;
      forall k | k in d
        ensures k !in r && exists p, cc :: p in rqaPlans && cc in p.codingConfigurations && cc.codedField == k
      {
        PassDictKeys(NoisePass, r, rqaPlans, k);
      }
    }
  }

  /** A noise message gets NOT_CODED on each coded field of an RQA plan it lacks. */
  lemma NoiseGetsNotCoded(r: Record, rqaPlans: seq<CodingPlan>, p: CodingPlan, cc: CodingConfiguration)
    requires UniqueCodedFields(rqaPlans) && PassView(NoisePass, r, rqaPlans).Ok?
    requires IsNoise(r) && p in rqaPlans && cc in p.codingConfigurations && cc.codedField !in r
    ensures ControlLabel(cc, NOT_CODED).Ok?
    ensures cc.codedField in PassView(NoisePass, r, rqaPlans).value
    ensures PassView(NoisePass, r, rqaPlans).value[cc.codedField] == ControlLabel(cc, NOT_CODED).value
  {
    PassDictValue(NoisePass, r, rqaPlans, p, cc);
  }

  /** The noise pass fails iff the record is noise and an RQA field it lacks has a scheme
      without NOT_CODED. */
  lemma NoisePassOk(r: Record, rqaPlans: seq<CodingPlan>)
    ensures PassView(NoisePass, r, rqaPlans).Ok? <==>
              (IsNoise(r) ==>
                 forall p, cc :: p in rqaPlans && cc in p.codingConfigurations && cc.codedField !in r ==>
                   GetCodeWithControlCode(cc.codeScheme, NOT_CODED).Some?)
  {
    PassDictOk(NoisePass, r, rqaPlans);
  }

  /** A plan whose WS-correct-dataset label is CODING_ERROR gets CODING_ERROR on every
      coded field, whatever the field held. */
  lemma CodingErrorOverrides(r: Record, plans: seq<CodingPlan>, ws: Scheme, p: CodingPlan, cc: CodingConfiguration)
    requires UniqueCodedFields(plans) && PassView(CodingErrorPass(ws), r, plans).Ok?
    requires p in plans && cc in p.codingConfigurations
    requires GetCodeWithControlCode(ws, CODING_ERROR).Some?
    requires CodeIdAt(r, WsKey(p)) == Ok(GetCodeWithControlCode(ws, CODING_ERROR).value.codeId)
    ensures ControlLabel(cc, CODING_ERROR).Ok?
    ensures cc.codedField in PassView(CodingErrorPass(ws), r, plans).value
    ensures PassView(CodingErrorPass(ws), r, plans).value[cc.codedField] == ControlLabel(cc, CODING_ERROR).value
  {
    PassDictValue(CodingErrorPass(ws), r, plans, p, cc);
  }

  /** A plan whose WS key is absent, or carries another code, keeps its coded fields. */
  lemma CodingErrorLeavesOthers(r: Record, plans: seq<CodingPlan>, ws: Scheme, p: CodingPlan, cc: CodingConfiguration)
    requires UniqueCodedFields(plans) && PassView(CodingErrorPass(ws), r, plans).Ok?
    requires p in plans && cc in p.codingConfigurations
    requires WsKey(p) !in r ||
             (CodeIdAt(r, WsKey(p)).Ok? && GetCodeWithControlCode(ws, CODING_ERROR).Some? &&
              CodeIdAt(r, WsKey(p)).value != GetCodeWithControlCode(ws, CODING_ERROR).value.codeId)
    ensures cc.codedField in PassView(CodingErrorPass(ws), r, plans).value <==> cc.codedField in r
    ensures cc.codedField in r ==> PassView(CodingErrorPass(ws), r, plans).value[cc.codedField] == r[cc.codedField]
  {
    PassDictFrame(CodingErrorPass(ws), r, plans, cc.codedField);
  }

  /** The coding-error pass fails iff a present WS key is not a label, the WS scheme has
      no CODING_ERROR code while some WS key is present, or a plan marked as a coding
      error has a configuration whose scheme lacks CODING_ERROR. */
  lemma CodingErrorPassOk(r: Record, plans: seq<CodingPlan>, ws: Scheme)
    ensures PassView(CodingErrorPass(ws), r, plans).Ok? <==>
              forall p :: p in plans && WsKey(p) in r ==>
                && r[WsKey(p)].Coded?
                && GetCodeWithControlCode(ws, CODING_ERROR).Some?
                && (r[WsKey(p)].codeId == GetCodeWithControlCode(ws, CODING_ERROR).value.codeId ==>
                      forall cc :: cc in p.codingConfigurations ==> GetCodeWithControlCode(cc.codeScheme, CODING_ERROR).Some?)
  {
    PassDictOk(CodingErrorPass(ws), r, plans);
  }

  // ---------------------------------------------------------------------------------
  // Phase order (src/apply_manual_codes.py:44-108)

  /** One record as the coding-error pass finds it: the labels imported from Coda are
      appended, then the missing-data pass over all plans, the noise pass over the RQA
      plans, and the layer the code imputation functions append. */
  function BeforeCodingError(r: Record, rqaPlans: seq<CodingPlan>, surveyPlans: seq<CodingPlan>,
                             codaLabels: Record -> Record, imputed: Record -> Record): Result<Record>
  {
    var imported := r + codaLabels(r);
    var missing :- PassView(MissingPass, imported, rqaPlans + surveyPlans);
    var noise :- PassView(NoisePass, missing, rqaPlans);
    Ok(noise + imputed(noise))
  }

  /** One record after `apply_manual_codes`. */
  function ManualCodesView(r: Record, rqaPlans: seq<CodingPlan>, surveyPlans: seq<CodingPlan>, ws: Scheme,
                           codaLabels: Record -> Record, imputed: Record -> Record): Result<Record>
  {
    var before :- BeforeCodingError(r, rqaPlans, surveyPlans, codaLabels, imputed);
    PassView(CodingErrorPass(ws), before, rqaPlans + surveyPlans)
  }

  /** The coding-error pass runs last, so a plan marked as a coding error ends with
      CODING_ERROR on every coded field, whatever the import, the missing-data and noise
      passes or the imputation functions wrote there. */
  lemma CodingErrorIsFinal(r: Record, rqaPlans: seq<CodingPlan>, surveyPlans: seq<CodingPlan>, ws: Scheme,
                           codaLabels: Record -> Record, imputed: Record -> Record, p: CodingPlan, cc: CodingConfiguration)
    requires UniqueCodedFields(rqaPlans + surveyPlans)
    requires ManualCodesView(r, rqaPlans, surveyPlans, ws, codaLabels, imputed).Ok?
    requires p in rqaPlans + surveyPlans && cc in p.codingConfigurations
    requires GetCodeWithControlCode(ws, CODING_ERROR).Some?
    requires CodeIdAt(BeforeCodingError(r, rqaPlans, surveyPlans, codaLabels, imputed).value, WsKey(p)) ==
             Ok(GetCodeWithControlCode(ws, CODING_ERROR).value.codeId)
    ensures ControlLabel(cc, CODING_ERROR).Ok?
    ensures cc.codedField in ManualCodesView(r, rqaPlans, surveyPlans, ws, codaLabels, imputed).value
    ensures ManualCodesView(r, rqaPlans, surveyPlans, ws, codaLabels, imputed).value[cc.codedField] ==
            ControlLabel(cc, CODING_ERROR).value
  {
    var before := BeforeCodingError(r, rqaPlans, surveyPlans, codaLabels, imputed).value;
    assert ManualCodesView(r, rqaPlans, surveyPlans, ws, codaLabels, imputed) ==
           PassView(CodingErrorPass(ws), before, rqaPlans + surveyPlans);
    CodingErrorOverrides(before, rqaPlans + surveyPlans, ws, p, cc);
  }

  /** The noise pass runs after the missing-data pass, so a label the missing-data pass
      wrote survives it. */
  lemma MissingLabelsSurviveNoise(r: Record, plans: seq<CodingPlan>, rqaPlans: seq<CodingPlan>, p: CodingPlan,
                                  cc: CodingConfiguration)
    requires UniqueCodedFields(plans) && PassView(MissingPass, r, plans).Ok?
    requires PassView(NoisePass, PassView(MissingPass, r, plans).value, rqaPlans).Ok?
    requires p in plans && cc in p.codingConfigurations && p.rawField !in r
    ensures ControlLabel(cc, TRUE_MISSING).Ok?
    ensures cc.codedField in PassView(NoisePass, PassView(MissingPass, r, plans).value, rqaPlans).value
    ensures PassView(NoisePass, PassView(MissingPass, r, plans).value, rqaPlans).value[cc.codedField] ==
            ControlLabel(cc, TRUE_MISSING).value
  {
    var m := PassView(MissingPass, r, plans).value;
    MissingAnswerGetsTrueMissing(r, plans, p, cc);
    NoisePassFrame(m, rqaPlans);
  }

  // ---------------------------------------------------------------------------------
  // The passes over the records

  /** The loop over the configurations of one plan, building a pass's dict. */
  method BuildLabels(d: Record, cfgs: seq<CodingConfiguration>, control: string, exclude: set<string>)
    returns (res: Result<Record>)
    ensures res == WriteLabels(d, cfgs, control, exclude)
  {
    var dict := d;
    for i := 0 to |cfgs|
      invariant WriteLabels(d, cfgs[..i], control, exclude) == Ok(dict)
    {
      assert cfgs[..i + 1][..i] == cfgs[..i];
      var cc := cfgs[i];
      if cc.codedField !in exclude {
        var code := GetCodeWithControlCode(cc.codeScheme, control);
        if code.None? {
          WriteLabelsErrPersists(d, cfgs, control, exclude, i + 1);
          return Err(KeyError(control));
        }
        dict := dict[cc.codedField := LabelValue(cc.codingMode, code.value.codeId)];
      }
    }
    assert cfgs[..|cfgs|] == cfgs;
    return Ok(dict);
  }

  /** The loop over the plans building one record's dict. */
  method BuildPassDict(pass: Pass, r: Record, plans: seq<CodingPlan>) returns (res: Result<Record>)
    ensures res == PassDict(pass, r, plans)
  {
    var dict: Record := map[];
    for i := 0 to |plans|
      invariant PassDict(pass, r, plans[..i]) == Ok(dict)
    {
      assert plans[..i + 1][..i] == plans[..i];
      var control := Decide(pass, r, plans[i]);
      if control.Err? {
        PassDictErrPersists(pass, r, plans, i + 1);
        return Err(control.error);
      }
      if control.value.Some? {
        var next := BuildLabels(dict, plans[i].codingConfigurations, control.value.value, Excluded(pass, r));
        if next.Err? {
          PassDictErrPersists(pass, r, plans, i + 1);
          return next;
        }
        dict := next.value;
      }
    }
    assert plans[..|plans|] == plans;
    return Ok(dict);
  }

  /** `after` is the record `before` becomes under a pass. */
  predicate PassedAs(before: Record, after: Record, pass: Pass, plans: seq<CodingPlan>) {
    var v := PassView(pass, before, plans);
    v.Ok? && after == v.value
  }

  /** One of the three passes over the records. It fails with the error of a record the
      pass cannot label. */
  method RunPass(data: seq<TracedData>, pass: Pass, plans: seq<CodingPlan>) returns (outcome: Result<()>)
    requires Distinct(data)
    modifies data
    ensures outcome.Ok? <==> forall i :: 0 <= i < |data| ==> PassView(pass, old(data[i].view), plans).Ok?
    ensures outcome.Err? ==> exists i :: 0 <= i < |data| && PassView(pass, old(data[i].view), plans) == Err(outcome.error)
    ensures outcome.Ok? ==> forall i :: 0 <= i < |data| ==> data[i].view == PassView(pass, old(data[i].view), plans).value
  {
    ghost var before := Views(data);
    for i := 0 to |data|
      invariant forall j :: 0 <= j < i ==> PassedAs(before[j], data[j].view, pass, plans)
      invariant forall j :: i <= j < |data| ==> data[j].view == before[j]
    {
      var td := data[i];
      if pass == NoisePass && !IsNoise(td.view) {
        assert PassedAs(before[i], data[i].view, pass, plans);
        continue;
      }
      var dict := BuildPassDict(pass, td.view, plans);
      if dict.Err? {
        assert PassView(pass, old(data[i].view), plans) == Err(dict.error);
        return Err(dict.error);
      }
      td.AppendData(dict.value);
      forall j | 0 <= j < i + 1 ensures PassedAs(before[j], data[j].view, pass, plans) {
        if j == i {
          assert PassedAs(before[i], data[i].view, pass, plans);
        }
      }
    }
    return Ok(());
  }

  /** `after` is `before` with the layer `layer` computes from it appended. */
  predicate AppendedAs(before: Record, after: Record, layer: Record -> Record) {
    after == before + layer(before)
  }

  /** Appends a layer computed from each record: the Coda import and the code imputation
      functions, which run outside this model. */
  method AppendLayers(data: seq<TracedData>, layer: Record -> Record)
    requires Distinct(data)
    modifies data
    ensures forall i :: 0 <= i < |data| ==> data[i].view == old(data[i].view) + layer(old(data[i].view))
  {
    ghost var before := Views(data);
    for i := 0 to |data|
      invariant forall j :: 0 <= j < i ==> AppendedAs(before[j], data[j].view, layer)
      invariant forall j :: i <= j < |data| ==> data[j].view == before[j]
    {
      data[i].AppendData(layer(data[i].view));
    }
  }

  /** `ApplyManualCodes.apply_manual_codes`: the Coda import, the missing-data pass, the
      noise pass, the imputation functions and the coding-error pass, in that order. It
      fails with the error of a record one of the passes cannot label. */
  method ApplyManualCodes(data: seq<TracedData>, rqaPlans: seq<CodingPlan>, surveyPlans: seq<CodingPlan>,
                          ws: Scheme, codaLabels: Record -> Record, imputed: Record -> Record)
    returns (outcome: Result<()>)
    requires Distinct(data)
    modifies data
    ensures outcome.Ok? <==>
              forall i :: 0 <= i < |data| ==> ManualCodesView(old(data[i].view), rqaPlans, surveyPlans, ws, codaLabels, imputed).Ok?
    ensures outcome.Err? ==>
              exists i :: 0 <= i < |data| &&
                ManualCodesView(old(data[i].view), rqaPlans, surveyPlans, ws, codaLabels, imputed) == Err(outcome.error)
    ensures outcome.Ok? ==>
              forall i :: 0 <= i < |data| ==>
                data[i].view == ManualCodesView(old(data[i].view), rqaPlans, surveyPlans, ws, codaLabels, imputed).value
  {
    var plans := rqaPlans + surveyPlans;
    ghost var v0 := Views(data);
    AppendLayers(data, codaLabels);
    ghost var v1 := Views(data);
    outcome := RunPass(data, MissingPass, plans);
    if outcome.Err? {
      return;
    }
    ghost var v2 := Views(data);
    outcome := RunPass(data, NoisePass, rqaPlans);
    if outcome.Err? {
      ghost var i :| 0 <= i < |data| && PassView(NoisePass, v2[i], rqaPlans) == Err(outcome.error);
      assert ManualCodesView(v0[i], rqaPlans, surveyPlans, ws, codaLabels, imputed) == Err(outcome.error);
      return;
    }
    AppendLayers(data, imputed);
    ghost var v3 := Views(data);
    outcome := RunPass(data, CodingErrorPass(ws), plans);
    forall i | 0 <= i < |data|
      ensures BeforeCodingError(v0[i], rqaPlans, surveyPlans, codaLabels, imputed) == Ok(v3[i])
    {
    }
  }
}
