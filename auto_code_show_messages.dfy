/** Auto-coding the show messages: the bookkeeping loops of the stage that prepares the
    radio-show answers for manual coding. They list each plan's raw field, count how many
    messages answered a field with the empty string, keep one survey record per
    respondent, and select the messages a plan's inter-coder-reliability sample is drawn
    from. */
module AutoCodeShowMessages {
  import opened Wrappers
  import opened TracedDataModel
  import opened PipelineConfiguration

  const UID_KEY := "uid"

  // ---------------------------------------------------------------------------------
  // RQA_KEYS and the raw-field lists (src/auto_code_show_messages.py:16-18, 74-85)

  /** The raw field of each plan, in plan order. */
  function RawFields(plans: seq<CodingPlan>): seq<string> {
    seq(|plans|, i requires 0 <= i < |plans| => plans[i].rawField)
  }

  /** `AutoCodeShowMessages.RQA_KEYS`. */
  method RqaKeys(rqaPlans: seq<CodingPlan>) returns (keys: seq<string>)
    ensures |keys| == |rqaPlans|
    ensures forall i :: 0 <= i < |rqaPlans| ==> keys[i] == rqaPlans[i].rawField
  {
    keys := [];
    for i := 0 to |rqaPlans|
      invariant |keys| == i
      invariant forall j :: 0 <= j < i ==> keys[j] == rqaPlans[j].rawField
    {
      keys := keys + [rqaPlans[i].rawField];
    }
  }

  /** `xs` without repeats, each element kept at its first occurrence. */
  function Dedup(xs: seq<string>): seq<string> {
    if xs == [] then []
    else
      var prev := Dedup(xs[..|xs| - 1]);
      var x := xs[|xs| - 1];
      if x in prev then prev else prev + [x]
  }

  /** The index of the first occurrence of `x` in `xs`. */
  function FirstIndex(xs: seq<string>, x: string): (i: nat)
    requires x in xs
    ensures i < |xs| && xs[i] == x && x !in xs[..i]
  {
    var n := |xs| - 1;
    if x in xs[..n] then
      var i := FirstIndex(xs[..n], x);
      assert xs[..n][..i] == xs[..i];
      i
    else
      n
  }

  /** Dedup keeps exactly the elements of its input. */
  lemma {:induction false} DedupMembers(xs: seq<string>)
    ensures forall x :: x in Dedup(xs) <==> x in xs
  {
    if xs != [] {
      var n := |xs| - 1;
      DedupMembers(xs[..n]);
      assert xs == xs[..n] + [xs[n]];
    }
  }

  /** Dedup keeps each element once. */
  lemma {:induction false} DedupDistinct(xs: seq<string>)
    ensures forall i, j :: 0 <= i < j < |Dedup(xs)| ==> Dedup(xs)[i] != Dedup(xs)[j]
  {
    if xs != [] {
      DedupDistinct(xs[..|xs| - 1]);
    }
  }

  /** Dedup lists the elements in the order of their first occurrences. */
  lemma {:induction false} DedupOrder(xs: seq<string>)
    ensures forall x :: x in Dedup(xs) ==> x in xs
    ensures forall i, j :: 0 <= i < j < |Dedup(xs)| ==> FirstIndex(xs, Dedup(xs)[i]) < FirstIndex(xs, Dedup(xs)[j])
  {
    DedupMembers(xs);
    if xs != [] {
      var n := |xs| - 1;
      var pre := xs[..n];
      var prev := Dedup(pre);
      var d := Dedup(xs);
      DedupOrder(pre);
      DedupMembers(pre);
      forall i, j | 0 <= i < j < |d|
        ensures FirstIndex(xs, d[i]) < FirstIndex(xs, d[j])
      {
        assert d[i] == prev[i];
        assert FirstIndex(xs, d[i]) == FirstIndex(pre, d[i]) < n;
        if j < |prev| {
          assert d[j] == prev[j];
          assert FirstIndex(xs, d[j]) == FirstIndex(pre, d[j]);
        } else {
          assert xs[n] !in prev && d == prev + [xs[n]];
          assert FirstIndex(xs, d[j]) == n;
        }
      }
    }
  }

  /** The `raw_rqa_fields` and `raw_survey_fields` loops: each plan's raw field once, in
      order of first occurrence. */
  method UniqueRawFields(plans: seq<CodingPlan>) returns (fields: seq<string>)
    ensures fields == Dedup(RawFields(plans))
    ensures forall i, j :: 0 <= i < j < |fields| ==> fields[i] != fields[j]
    ensures forall f :: f in fields <==> exists p :: p in plans && p.rawField == f
  {
    fields := [];
    var raw := RawFields(plans);
    for i := 0 to |plans|
      invariant fields == Dedup(raw[..i])
    {
      assert raw[..i + 1][..i] == raw[..i];
      if plans[i].rawField !in fields {
        fields := fields + [plans[i].rawField];
      }
    }
    assert raw[..|plans|] == raw;
    DedupDistinct(raw);
    DedupMembers(raw);
    forall f | f in raw
      ensures exists p :: p in plans && p.rawField == f
    {
      var i :| 0 <= i < |raw| && raw[i] == f;
      assert plans[i] in plans;
    }
    forall p | p in plans
      ensures p.rawField in raw
    {
      var i :| 0 <= i < |plans| && plans[i] == p;
      assert raw[i] == p.rawField;
    }
  }

  // ---------------------------------------------------------------------------------
  // log_empty_string_stats (src/auto_code_show_messages.py:25-38)

  /** The number of records that have `field`. */
  function CountPresent(rs: seq<Record>, field: string): nat {
    if rs == [] then 0
    else CountPresent(rs[..|rs| - 1], field) + (if field in rs[|rs| - 1] then 1 else 0)
  }

  /** The number of records whose `field` is the empty string. */
  function CountEmpty(rs: seq<Record>, field: string): nat {
    if rs == [] then 0
    else
      var r := rs[|rs| - 1];
      CountEmpty(rs[..|rs| - 1], field) + (if field in r && r[field] == Str("") then 1 else 0)
  }

  /** Empty answers are answers: the empty count never exceeds the total. */
  lemma {:induction false} EmptyAtMostTotal(rs: seq<Record>, field: string)
    ensures CountEmpty(rs, field) <= CountPresent(rs, field) <= |rs|
  {
    if rs != [] {
      EmptyAtMostTotal(rs[..|rs| - 1], field);
    }
  }

  datatype FieldStats = FieldStats(field: string, emptyCount: nat, totalCount: nat)

  /** The counting loop for one field. */
  method EmptyStringStats(data: seq<Record>, field: string) returns (stats: FieldStats)
    ensures stats.field == field
    ensures stats.totalCount == CountPresent(data, field)
    ensures stats.emptyCount == CountEmpty(data, field)
    ensures stats.emptyCount <= stats.totalCount <= |data|
  {
    var total := 0;
    var empty := 0;
    for i := 0 to |data|
      invariant total == CountPresent(data[..i], field)
      invariant empty == CountEmpty(data[..i], field)
    {
      assert data[..i + 1][..i] == data[..i];
      if field in data[i] {
        total := total + 1;
        if data[i][field] == Str("") {
          empty := empty + 1;
        }
      }
    }
    assert data[..|data|] == data;
    EmptyAtMostTotal(data, field);
    return FieldStats(field, empty, total);
  }

  /** `AutoCodeShowMessages.log_empty_string_stats`: the counts of each field, which the
      source logs. */
  method LogEmptyStringStats(data: seq<Record>, rawFields: seq<string>) returns (stats: seq<FieldStats>)
    ensures |stats| == |rawFields|
    ensures forall i :: 0 <= i < |rawFields| ==>
              stats[i] == FieldStats(rawFields[i], CountEmpty(data, rawFields[i]), CountPresent(data, rawFields[i]))
  {
    stats := [];
    for i := 0 to |rawFields|
      invariant |stats| == i
      invariant forall j :: 0 <= j < i ==>
                  stats[j] == FieldStats(rawFields[j], CountEmpty(data, rawFields[j]), CountPresent(data, rawFields[j]))
    {
      var s := EmptyStringStats(data, rawFields[i]);
      stats := stats + [s];
    }
  }

  // ---------------------------------------------------------------------------------
  // survey_data (src/auto_code_show_messages.py:86-88)

  /** `td["uid"]` used as a dict key: a KeyError when absent, a TypeError when the value
      is a label, which is not hashable. */
  function Uid(r: Record): (res: Result<Value>)
    ensures res.Ok? <==> UID_KEY in r && !r[UID_KEY].Coded? && !r[UID_KEY].CodedList?
    ensures res.Ok? ==> res.value == r[UID_KEY]
  {
    if UID_KEY !in r then Err(KeyError(UID_KEY))
    else if r[UID_KEY].Coded? || r[UID_KEY].CodedList? then Err(TypeError)
    else Ok(r[UID_KEY])
  }

  /** The survey dict: each record is stored under its uid, replacing earlier ones. */
  function SurveyMap(rs: seq<Record>): Result<map<Value, Record>> {
    if rs == [] then Ok(map[])
    else
      var prev :- SurveyMap(rs[..|rs| - 1]);
      var r := rs[|rs| - 1];
      var uid :- Uid(r);
      Ok(prev[uid := r])
  }

  /** The survey dict is built iff every record has a usable uid; its keys are then the
      uids of the records. */
  lemma {:induction false} SurveyMapKeys(rs: seq<Record>)
    ensures SurveyMap(rs).Ok? <==> forall i :: 0 <= i < |rs| ==> Uid(rs[i]).Ok?
    ensures SurveyMap(rs).Ok? ==>
              forall u :: u in SurveyMap(rs).value <==> exists i :: 0 <= i < |rs| && Uid(rs[i]) == Ok(u)
  {
    if rs != [] {
      var n := |rs| - 1;
      SurveyMapKeys(rs[..n]);
      assert forall i :: 0 <= i < n ==> rs[..n][i] == rs[i];
    }
  }

  /** The record kept for a uid is the last record with that uid. */
  lemma {:induction false} SurveyMapLast(rs: seq<Record>, i: nat)
    requires SurveyMap(rs).Ok? && i < |rs|
    requires forall j :: i < j < |rs| ==> Uid(rs[j]) != Uid(rs[i])
    ensures Uid(rs[i]).Ok?
    ensures Uid(rs[i]).value in SurveyMap(rs).value
    ensures SurveyMap(rs).value[Uid(rs[i]).value] == rs[i]
  {
    var n := |rs| - 1;
    if i < n {
      SurveyMapLast(rs[..n], i);
    }
  }

  lemma {:induction false} SurveyMapErrPersists(rs: seq<Record>, m: nat)
    requires m <= |rs| && SurveyMap(rs[..m]).Err?
    ensures SurveyMap(rs) == SurveyMap(rs[..m])
  {
    if m < |rs| {
      var n := |rs| - 1;
      assert rs[..n][..m] == rs[..m];
      SurveyMapErrPersists(rs[..n], m);
      assert SurveyMap(rs[..n]).Err?;
      assert SurveyMap(rs) == SurveyMap(rs[..n]);
    } else {
      assert rs[..m] == rs;
    }
  }

  /** The `survey_data` loop. */
  method SurveyData(data: seq<Record>) returns (res: Result<map<Value, Record>>)
    ensures res == SurveyMap(data)
  {
    var surveyData: map<Value, Record> := map[];
    for i := 0 to |data|
      invariant SurveyMap(data[..i]) == Ok(surveyData)
    {
      assert data[..i + 1][..i] == data[..i];
      var uid := Uid(data[i]);
      if uid.Err? {
        SurveyMapErrPersists(data, i + 1);
        return Err(uid.error);
      }
      surveyData := surveyData[uid.value := data[i]];
    }
    assert data[..|data|] == data;
    return Ok(surveyData);
  }

  // ---------------------------------------------------------------------------------
  // The ICR candidates (src/auto_code_show_messages.py:104-108)

  /** The records that have `field`, in order. */
  function Containing(rs: seq<Record>, field: string): seq<Record> {
    if rs == [] then []
    else Containing(rs[..|rs| - 1], field) + (if field in rs[|rs| - 1] then [rs[|rs| - 1]] else [])
  }

  /** The selection keeps exactly the records that have the field... */
  lemma {:induction false} ContainingMembers(rs: seq<Record>, field: string)
    ensures forall r :: r in Containing(rs, field) <==> r in rs && field in r
    ensures |Containing(rs, field)| == CountPresent(rs, field)
  {
    if rs != [] {
      var n := |rs| - 1;
      ContainingMembers(rs[..n], field);
      assert rs == rs[..n] + [rs[n]];
    }
  }

  /** ...and keeps them in their order: selecting from `a + b` is selecting from `a`, then
      from `b`. */
  lemma {:induction false} ContainingAppend(a: seq<Record>, b: seq<Record>, field: string)
    ensures Containing(a + b, field) == Containing(a, field) + Containing(b, field)
  {
    if b != [] {
      var n := |b| - 1;
      assert (a + b)[..|a| + n] == a + b[..n];
      assert (a + b)[|a| + n] == b[n];
      ContainingAppend(a, b[..n], field);
    } else {
      assert a + b == a;
    }
  }

  /** The `rqa_messages` loop: the not-noise messages that answered the plan's question,
      from which the ICR sample is drawn. */
  method RqaMessages(notNoise: seq<Record>, rawField: string) returns (rqaMessages: seq<Record>)
    ensures rqaMessages == Containing(notNoise, rawField)
  {
    rqaMessages := [];
    for i := 0 to |notNoise|
      invariant rqaMessages == Containing(notNoise[..i], rawField)
    {
      assert notNoise[..i + 1][..i] == notNoise[..i];
      if rawField in notNoise[i] {
        rqaMessages := rqaMessages + [notNoise[i]];
      }
    }
    assert notNoise[..|notNoise|] == notNoise;
  }
}
