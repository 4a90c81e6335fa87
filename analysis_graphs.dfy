/** The counters behind the analysis graphs: the coding plans of the chosen location, the
    number of messages and of individuals that answered each radio show, and the
    distribution of each survey question's labels over the individuals. The charts drawn
    from them are not part of this model. */
module AnalysisGraphs {
  import opened Wrappers
  import opened CodeSchemes
  import opened TracedDataModel
  import opened PipelineConfiguration
  import opened AutoCodeShowMessages
  import AnalysisFile

  // ---------------------------------------------------------------------------------
  // Location (generate_analysis_graphs.py:37-41)

  /** The RQA plans of a location: "bossaso" or "baidoa"; any other location fails the
      `assert`. */
  function SelectPlans(location: string, bossasoPlans: seq<CodingPlan>, baidoaPlans: seq<CodingPlan>)
    : (res: Result<seq<CodingPlan>>)
    ensures res.Ok? <==> location == "bossaso" || location == "baidoa"
    ensures location == "bossaso" ==> res == Ok(bossasoPlans)
    ensures location == "baidoa" ==> res == Ok(baidoaPlans)
    ensures res.Err? ==> res.error == AssertionError
  {
    if location == "bossaso" then Ok(bossasoPlans)
    else if location == "baidoa" then Ok(baidoaPlans)
    else Err(AssertionError)
  }

  // ---------------------------------------------------------------------------------
  // Messages and individuals per show (generate_analysis_graphs.py:57-88)

  /** `r.get(field, "") != ""`. */
  predicate Answered(r: Record, field: string) {
    Get(r, field, Str("")) != Str("")
  }

  /** The consent test is only read for an answer, and fails with a KeyError when the
      record has no consent key. */
  predicate Readable(r: Record, field: string) {
    !Answered(r, field) || AnalysisFile.CONSENT_WITHDRAWN_KEY in r
  }

  /** A record counts for a show: it answered it and did not withdraw consent. */
  predicate CountsFor(r: Record, field: string) {
    Answered(r, field) && AnalysisFile.CONSENT_WITHDRAWN_KEY in r && r[AnalysisFile.CONSENT_WITHDRAWN_KEY] == Str(FALSE)
  }

  /** The number of records counting for a show. */
  function CountShow(rs: seq<Record>, field: string): nat {
    if rs == [] then 0
    else CountShow(rs[..|rs| - 1], field) + (if CountsFor(rs[|rs| - 1], field) then 1 else 0)
  }

  /** How many plans share a raw field; each adds one to its counter per counting record. */
  function Multiplicity(plans: seq<CodingPlan>, field: string): nat {
    if plans == [] then 0
    else Multiplicity(plans[..|plans| - 1], field) + (if plans[|plans| - 1].rawField == field then 1 else 0)
  }

  lemma CountShowStep(rs: seq<Record>, i: nat, field: string)
    requires i < |rs|
    ensures CountShow(rs[..i + 1], field) == CountShow(rs[..i], field) + (if CountsFor(rs[i], field) then 1 else 0)
  {
    assert rs[..i + 1][..i] == rs[..i];
  }

  lemma MultiplicityStep(plans: seq<CodingPlan>, j: nat, field: string)
    requires j < |plans|
    ensures Multiplicity(plans[..j + 1], field) == Multiplicity(plans[..j], field) + (if plans[j].rawField == field then 1 else 0)
  {
    assert plans[..j + 1][..j] == plans[..j];
  }

  /** A show's counter after one more record: `m` plans share the show, `c` records
      counted before, and the record counts iff `b`. */
  lemma TallyStep(m: nat, c: nat, b: bool, before: nat, after: nat, c': nat)
    requires before == Tally(m, c) && after == before + (if b then m else 0) && c' == c + (if b then 1 else 0)
    ensures after == Tally(m, c')
  {
  }

  /** A show's counter: `m` plans share the show and `c` records count for it. */
  function Tally(m: nat, c: nat): nat {
    m * c
  }

  /** Every show's consent test can be read on a record. */
  predicate AllReadable(r: Record, plans: seq<CodingPlan>) {
    forall p :: p in plans ==> Readable(r, p.rawField)
  }

  /** A zero-initialised ordered counter: one entry per distinct value, in order of first
      occurrence. */
  method ZeroCounters(values: seq<string>) returns (counts: map<string, nat>, keys: seq<string>)
    ensures keys == Dedup(values)
    ensures forall k :: k in counts <==> k in values
    ensures forall k :: k in counts ==> counts[k] == 0
  {
    counts := map[];
    keys := [];
    for j := 0 to |values|
      invariant keys == Dedup(values[..j])
      invariant forall k :: k in counts <==> k in values[..j]
      invariant forall k :: k in counts ==> counts[k] == 0
    {
      assert values[..j + 1][..j] == values[..j];
      assert values[..j + 1] == values[..j] + [values[j]];
      DedupMembers(values[..j]);
      if values[j] !in counts {
        keys := keys + [values[j]];
      }
      counts := counts[values[j] := 0];
    }
    assert values[..|values|] == values;
  }

  /** The inner loop for one record: each plan whose show the record counts for adds one
      to its counter. */
  method CountRecord(counts: map<string, nat>, rec: Record, plans: seq<CodingPlan>) returns (res: Result<map<string, nat>>)
    requires forall p :: p in plans ==> p.rawField in counts
    ensures res.Ok? <==> AllReadable(rec, plans)
    ensures res.Err? ==> res.error == KeyError(AnalysisFile.CONSENT_WITHDRAWN_KEY)
    ensures res.Ok? ==> res.value.Keys == counts.Keys
    ensures res.Ok? ==> forall k :: k in counts ==>
              res.value[k] == counts[k] + (if CountsFor(rec, k) then Multiplicity(plans, k) else 0)
  {
    var current := counts;
    for j := 0 to |plans|
      invariant current.Keys == counts.Keys
      invariant forall k :: k in counts ==>
                  current[k] == counts[k] + (if CountsFor(rec, k) then Multiplicity(plans[..j], k) else 0)
      invariant forall p :: p in plans[..j] ==> Readable(rec, p.rawField)
    {
      assert plans[..j + 1] == plans[..j] + [plans[j]];
      forall k | k in counts {
        MultiplicityStep(plans, j, k);
      }
      var field := plans[j].rawField;
      if Get(rec, field, Str("")) != Str("") {
        if AnalysisFile.CONSENT_WITHDRAWN_KEY !in rec {
          assert !Readable(rec, plans[j].rawField) && plans[j] in plans;
          return Err(KeyError(AnalysisFile.CONSENT_WITHDRAWN_KEY));
        }
        if rec[AnalysisFile.CONSENT_WITHDRAWN_KEY] == Str(FALSE) {
          current := current[field := current[field] + 1];
        }
      }
    }
    assert plans[..|plans|] == plans;
    return Ok(current);
  }

  /** The counters before the records are counted: each plan's raw field has one, and the
      counters are named by the deduplicated raw fields. */
  lemma RawFieldCounters(plans: seq<CodingPlan>, counts: map<string, nat>, keys: seq<string>)
    requires keys == Dedup(RawFields(plans))
    requires forall k :: k in counts <==> k in RawFields(plans)
    ensures forall k :: k in counts <==> k in keys
    ensures forall p :: p in plans ==> p.rawField in counts
  {
    var raw := RawFields(plans);
    DedupMembers(raw);
    forall p | p in plans ensures p.rawField in raw {
      var j :| 0 <= j < |plans| && plans[j] == p;
      assert raw[j] == p.rawField;
    }
  }

  /** `messages_per_show` and `individuals_per_show`: for each raw field of the plans, the
      number of records counting for it, once per plan with that raw field. A record that
      answered a show but has no consent key is a KeyError. */
  method CountPerShow(records: seq<Record>, plans: seq<CodingPlan>) returns (res: Result<map<string, nat>>, keys: seq<string>)
    ensures keys == Dedup(RawFields(plans))
    ensures res.Ok? <==> forall r :: r in records ==> AllReadable(r, plans)
    ensures res.Err? ==> res.error == KeyError(AnalysisFile.CONSENT_WITHDRAWN_KEY)
    ensures res.Ok? ==> forall k :: k in res.value <==> k in keys
    ensures res.Ok? ==>
              forall p :: p in plans ==>
                p.rawField in res.value && res.value[p.rawField] == Tally(Multiplicity(plans, p.rawField), CountShow(records, p.rawField))
  {
    var counts;
    counts, keys := ZeroCounters(RawFields(plans));
    RawFieldCounters(plans, counts, keys);
    ghost var names := counts.Keys;
    assert records[..0] == [];
    for i := 0 to |records|
      invariant counts.Keys == names
      invariant forall k :: k in counts ==> counts[k] == Tally(Multiplicity(plans, k), CountShow(records[..i], k))
      invariant forall j :: 0 <= j < i ==> AllReadable(records[j], plans)
    {
      var rec := records[i];
      var next := CountRecord(counts, rec, plans);
      if next.Err? {
        return next, keys;
      }
      forall k | k in counts
        ensures next.value[k] == Tally(Multiplicity(plans, k), CountShow(records[..i + 1], k))
      {
        CountShowStep(records, i, k);
        TallyStep(Multiplicity(plans, k), CountShow(records[..i], k), CountsFor(rec, k),
                  counts[k], next.value[k], CountShow(records[..i + 1], k));
      }
      counts := next.value;
      forall j | 0 <= j < i + 1 ensures AllReadable(records[j], plans) {
        if j == i {
          assert records[j] == rec;
        }
      }
    }
    assert records[..|records|] == records;
    return Ok(counts), keys;
  }

  // ---------------------------------------------------------------------------------
  // Label distributions (generate_analysis_graphs.py:101-113)

  /** The string values of a scheme's codes, in scheme order. */
  function StringValues(s: Scheme): seq<string> {
    seq(|s.codes|, i requires 0 <= i < |s.codes| => s.codes[i].stringValue)
  }

  /** The number of individuals whose column `key` holds `value`. */
  function CountLabel(rs: seq<Record>, key: string, value: string): nat {
    if rs == [] then 0
    else
      var r := rs[|rs| - 1];
      CountLabel(rs[..|rs| - 1], key, value) + (if key in r && r[key] == Str(value) then 1 else 0)
  }

  lemma CountLabelStep(rs: seq<Record>, i: nat, key: string, value: string)
    requires i < |rs|
    ensures CountLabel(rs[..i + 1], key, value)
            == CountLabel(rs[..i], key, value) + (if key in rs[i] && rs[i][key] == Str(value) then 1 else 0)
  {
    assert rs[..i + 1][..i] == rs[..i];
  }

  /** One more individual, whose label is `value`, adds one to that label's counter. */
  lemma LabelTallyStep(rs: seq<Record>, i: nat, key: string, counts: map<string, nat>, value: string)
    requires i < |rs| && key in rs[i] && rs[i][key] == Str(value) && value in counts
    requires forall k :: k in counts ==> counts[k] == CountLabel(rs[..i], key, k)
    ensures forall k :: k in counts ==> counts[value := counts[value] + 1][k] == CountLabel(rs[..i + 1], key, k)
  {
    forall k | k in counts
      ensures counts[value := counts[value] + 1][k] == CountLabel(rs[..i + 1], key, k)
    {
      CountLabelStep(rs, i, key, k);
    }
  }

  /** The sum of the counters named by `keys`. */
  function SumCounts(keys: seq<string>, counts: map<string, nat>): nat
    requires forall k :: k in keys ==> k in counts
  {
    if keys == [] then 0 else SumCounts(keys[..|keys| - 1], counts) + counts[keys[|keys| - 1]]
  }

  lemma {:induction false} SumCountsZero(keys: seq<string>, counts: map<string, nat>)
    requires forall k :: k in keys ==> k in counts && counts[k] == 0
    ensures SumCounts(keys, counts) == 0
  {
    if keys != [] {
      SumCountsZero(keys[..|keys| - 1], counts);
    }
  }

  /** Adding one to the counter of one of the distinct keys adds one to the sum. */
  lemma {:induction false} SumCountsIncrement(keys: seq<string>, counts: map<string, nat>, k: string)
    requires forall i, j :: 0 <= i < j < |keys| ==> keys[i] != keys[j]
    requires forall x :: x in keys ==> x in counts
    requires k in keys
    ensures SumCounts(keys, counts[k := counts[k] + 1]) == SumCounts(keys, counts) + 1
  {
    var n := |keys| - 1;
    var pre := keys[..n];
    if keys[n] == k {
      assert k !in pre;
      SumCountsFrame(pre, counts, k);
    } else {
      assert k in pre;
      SumCountsIncrement(pre, counts, k);
    }
  }

  /** The sum over keys that do not include `k` ignores the counter of `k`. */
  lemma {:induction false} SumCountsFrame(keys: seq<string>, counts: map<string, nat>, k: string)
    requires forall x :: x in keys ==> x in counts
    requires k in counts && k !in keys
    ensures SumCounts(keys, counts[k := counts[k] + 1]) == SumCounts(keys, counts)
  {
    if keys != [] {
      SumCountsFrame(keys[..|keys| - 1], counts, k);
    }
  }

  /** `label_counts` for one survey configuration with an analysis key: a counter per
      string value of the scheme, in scheme order; every individual adds one to the counter
      of its label, so the counters sum to the number of individuals. An individual without
      the key, or with a label outside the scheme, is a KeyError. */
  method LabelCounts(individuals: seq<Record>, key: string, scheme: Scheme)
    returns (res: Result<map<string, nat>>, keys: seq<string>)
    ensures keys == Dedup(StringValues(scheme))
    ensures res.Ok? <==> forall r: Record :: r in individuals ==> HasSchemeLabel(r, key, scheme)
    ensures res.Err? ==> res.error.KeyError?
    ensures res.Ok? ==> forall k :: k in res.value <==> k in keys
    ensures res.Ok? ==> forall k :: k in res.value ==> res.value[k] == CountLabel(individuals, key, k)
    ensures res.Ok? ==> SumCounts(keys, res.value) == |individuals|
  {
    var values := StringValues(scheme);
    var counts;
    counts, keys := ZeroCounters(values);
    DedupMembers(values);
    DedupDistinct(values);
    SumCountsZero(keys, counts);
    ghost var names := counts.Keys;
    assert individuals[..0] == [];
    for i := 0 to |individuals|
      invariant counts.Keys == names
      invariant forall k :: k in counts ==> counts[k] == CountLabel(individuals[..i], key, k)
      invariant SumCounts(keys, counts) == i
      invariant forall j :: 0 <= j < i ==> HasSchemeLabel(individuals[j], key, scheme)
    {
      var ind := individuals[i];
      if key !in ind || !ind[key].Str? {
        assert ind in individuals;
        return Err(KeyError(key)), keys;
      }
      var value := ind[key].s;
      if value !in counts {
        assert ind in individuals;
        return Err(KeyError(value)), keys;
      }
      SumCountsIncrement(keys, counts, value);
      LabelTallyStep(individuals, i, key, counts, value);
      counts := counts[value := counts[value] + 1];
      forall j | 0 <= j < i + 1 ensures HasSchemeLabel(individuals[j], key, scheme) {
        if j == i {
          assert individuals[j] == ind;
        }
      }
    }
    assert individuals[..|individuals|] == individuals;
    return Ok(counts), keys;
  }

  /** An individual's column `key` holds one of the scheme's string values. */
  predicate HasSchemeLabel(r: Record, key: string, scheme: Scheme) {
    key in r && r[key].Str? && r[key].s in StringValues(scheme)
  }
}
