/** The consent engine of the analysis stage: finding a withdrawal-of-consent (STOP) code in
    a record, marking such records as withdrawn, and overwriting every other field of a
    withdrawn record with STOP. */
module Consent {
  import opened Wrappers
  import opened CodeSchemes
  import opened TracedDataModel
  import opened PipelineConfiguration

  /** The matrix column a MULTIPLE configuration's STOP code is materialised into. */
  function StopColumn(cc: CodingConfiguration): string {
    KeyText(cc.analysisFileKey) + STOP
  }

  /** The key the stop test of one configuration reads. */
  function StopTestKey(cc: CodingConfiguration): string {
    if cc.codingMode == Single then cc.codedField else StopColumn(cc)
  }

  /** The stop test of one configuration: for SINGLE, whether the code of the label in the
      coded field has control code STOP (a KeyError when the field or the code id is
      missing, a TypeError when the field holds no label); for MULTIPLE, whether the
      configuration's STOP column holds MATRIX_1 (a KeyError when it is missing). */
  function ConfigHasStop(r: Record, cc: CodingConfiguration): (res: Result<bool>)
    ensures cc.codingMode == Single ==>
              (res.Ok? <==> CodeIdAt(r, cc.codedField).Ok? && GetCodeWithId(cc.codeScheme, r[cc.codedField].codeId).Some?)
    ensures cc.codingMode == Single && res.Ok? ==>
              (res.value <==> GetCodeWithId(cc.codeScheme, r[cc.codedField].codeId).value.controlCode == Some(STOP))
    ensures cc.codingMode == Multiple ==> (res.Ok? <==> StopColumn(cc) in r)
    ensures cc.codingMode == Multiple && res.Ok? ==> (res.value <==> r[StopColumn(cc)] == Str(MATRIX_1))
  {
    if cc.codingMode == Single then
      var id :- CodeIdAt(r, cc.codedField);
      var code := GetCodeWithId(cc.codeScheme, id);
      if code.None? then Err(KeyError(id)) else Ok(code.value.controlCode == Some(STOP))
    else
      var key := StopColumn(cc);
      if key !in r then Err(KeyError(key)) else Ok(r[key] == Str(MATRIX_1))
  }

  /** `ConsentUtils.td_has_stop_code` over the configurations of all plans in visiting
      order: true at the first configuration whose stop test holds, an error at the first
      one whose test fails before that, false when every test is false. */
  function TdHasStopCode(r: Record, cfgs: seq<CodingConfiguration>): (res: Result<bool>)
    ensures res == Ok(false) <==> forall i :: 0 <= i < |cfgs| ==> ConfigHasStop(r, cfgs[i]) == Ok(false)
    ensures (forall i :: 0 <= i < |cfgs| ==> ConfigHasStop(r, cfgs[i]).Ok?) ==> res.Ok?
    ensures res == Ok(true) ==> exists i :: 0 <= i < |cfgs| && ConfigHasStop(r, cfgs[i]) == Ok(true)
                                            && forall j :: 0 <= j < i ==> ConfigHasStop(r, cfgs[j]) == Ok(false)
    ensures res.Err? ==> exists i :: 0 <= i < |cfgs| && ConfigHasStop(r, cfgs[i]) == res
                                     && forall j :: 0 <= j < i ==> ConfigHasStop(r, cfgs[j]) == Ok(false)
  {
    if cfgs == [] then Ok(false)
    else
      var stop := ConfigHasStop(r, cfgs[0]);
      if stop.Err? then Err(stop.error)
      else if stop.value then Ok(true)
      else
        var rest := TdHasStopCode(r, cfgs[1..]);
        assert forall i :: 1 <= i < |cfgs| ==> cfgs[i] == cfgs[1..][i - 1];
        rest
  }

  /** Writing a key that no stop test reads does not change the outcome of the search. */
  lemma {:induction false} TdHasStopCodeFrame(r: Record, cfgs: seq<CodingConfiguration>, k: string, v: Value)
    requires forall i :: 0 <= i < |cfgs| ==> StopTestKey(cfgs[i]) != k
    ensures TdHasStopCode(r[k := v], cfgs) == TdHasStopCode(r, cfgs)
  {
    if cfgs != [] {
      assert ConfigHasStop(r[k := v], cfgs[0]) == ConfigHasStop(r, cfgs[0]);
      TdHasStopCodeFrame(r, cfgs[1..], k, v);
    }
  }

  /** The change `determine_consent_withdrawn` makes to one record: the withdrawn key
      becomes TRUE exactly when the record has a stop code; otherwise nothing changes. */
  function MarkWithdrawn(r: Record, cfgs: seq<CodingConfiguration>, withdrawnKey: string): (res: Result<Record>)
    ensures res.Ok? <==> TdHasStopCode(r, cfgs).Ok?
    ensures res.Ok? && TdHasStopCode(r, cfgs).value ==> res.value == r[withdrawnKey := Str(TRUE)]
    ensures res.Ok? && !TdHasStopCode(r, cfgs).value ==> res.value == r
  {
    var stop :- TdHasStopCode(r, cfgs);
    Ok(if stop then r[withdrawnKey := Str(TRUE)] else r)
  }

  /** Writing the value a key already holds leaves the record as it was. */
  lemma UpdateSame(m: Record, k: string, v: Value)
    requires k in m && m[k] == v
    ensures m[k := v] == m
  {
  }

  /** Determining consent a second time changes nothing, as long as the withdrawn key is
      not itself a key the stop tests read. */
  lemma MarkWithdrawnIdempotent(r: Record, cfgs: seq<CodingConfiguration>, withdrawnKey: string)
    requires forall i :: 0 <= i < |cfgs| ==> StopTestKey(cfgs[i]) != withdrawnKey
    requires MarkWithdrawn(r, cfgs, withdrawnKey).Ok?
    ensures MarkWithdrawn(MarkWithdrawn(r, cfgs, withdrawnKey).value, cfgs, withdrawnKey) == MarkWithdrawn(r, cfgs, withdrawnKey)
  {
    var m := MarkWithdrawn(r, cfgs, withdrawnKey).value;
    if TdHasStopCode(r, cfgs).value {
      assert m == r[withdrawnKey := Str(TRUE)];
      TdHasStopCodeFrame(r, cfgs, withdrawnKey, Str(TRUE));
      assert TdHasStopCode(m, cfgs) == Ok(true);
      UpdateSame(m, withdrawnKey, Str(TRUE));
    } else {
      assert m == r;
    }
  }

  /** `after` is what MarkWithdrawn makes of `before`. */
  predicate Marked(before: Record, after: Record, cfgs: seq<CodingConfiguration>, withdrawnKey: string) {
    var m := MarkWithdrawn(before, cfgs, withdrawnKey);
    m.Ok? && after == m.value
  }

  /** The loop body of `ConsentUtils.determine_consent_withdrawn`, on one record. */
  method MarkOne(td: TracedData, cfgs: seq<CodingConfiguration>, withdrawnKey: string) returns (outcome: Result<()>)
    modifies td
    ensures outcome.Ok? <==> MarkWithdrawn(old(td.view), cfgs, withdrawnKey).Ok?
    ensures outcome.Err? ==> MarkWithdrawn(old(td.view), cfgs, withdrawnKey) == Err(outcome.error)
    ensures outcome.Ok? ==> td.view == MarkWithdrawn(old(td.view), cfgs, withdrawnKey).value
  {
    var stop := TdHasStopCode(td.view, cfgs);
    if stop.Err? {
      return Err(stop.error);
    }
    if stop.value {
      td.AppendData(map[withdrawnKey := Str(TRUE)]);
      assert td.view == old(td.view)[withdrawnKey := Str(TRUE)];
    }
    return Ok(());
  }

  /** `ConsentUtils.determine_consent_withdrawn`. On success every record is changed as
      MarkWithdrawn says; it fails with the error of a record whose stop test fails. */
  method DetermineConsentWithdrawn(data: seq<TracedData>, cfgs: seq<CodingConfiguration>, withdrawnKey: string)
    returns (outcome: Result<()>)
    requires Distinct(data)
    modifies data
    ensures outcome.Ok? <==> forall i :: 0 <= i < |data| ==> MarkWithdrawn(old(data[i].view), cfgs, withdrawnKey).Ok?
    ensures outcome.Err? ==> exists i :: 0 <= i < |data| && MarkWithdrawn(old(data[i].view), cfgs, withdrawnKey) == Err(outcome.error)
    ensures outcome.Ok? ==> forall i :: 0 <= i < |data| ==> data[i].view == MarkWithdrawn(old(data[i].view), cfgs, withdrawnKey).value
  {
    ghost var before := Views(data);
    for i := 0 to |data|
      invariant forall j :: 0 <= j < i ==> Marked(before[j], data[j].view, cfgs, withdrawnKey)
      invariant forall j :: i <= j < |data| ==> data[j].view == before[j]
    {
      outcome := MarkOne(data[i], cfgs, withdrawnKey);
      if outcome.Err? {
        return;
      }
    }
    return Ok(());
  }

  /** Whether a record is marked as withdrawn: `td.get(withdrawn_key) == Codes.TRUE`. */
  predicate IsWithdrawn(r: Record, withdrawnKey: string) {
    withdrawnKey in r && r[withdrawnKey] == Str(TRUE)
  }

  /** `{key: STOP for key in list(td.keys()) + additional_keys if key != withdrawn_key}`. */
  function StopDict(r: Record, withdrawnKey: string, additionalKeys: seq<string>): (d: Record)
    ensures d.Keys == (r.Keys + (set k | k in additionalKeys)) - {withdrawnKey}
    ensures forall k :: k in d ==> d[k] == Str(STOP)
  {
    var keys := r.Keys + (set k | k in additionalKeys);
    map k | k in keys && k != withdrawnKey :: Str(STOP)
  }

  /** The change `set_stopped` makes to one record: a withdrawn record gets STOP under every
      key it has and every additional key, except the withdrawn key, which stays TRUE; any
      other record is unchanged. */
  function StoppedView(r: Record, withdrawnKey: string, additionalKeys: seq<string>): (s: Record)
    ensures !IsWithdrawn(r, withdrawnKey) ==> s == r
    ensures IsWithdrawn(r, withdrawnKey) ==>
              && s.Keys == r.Keys + (set k | k in additionalKeys)
              && s[withdrawnKey] == Str(TRUE)
              && forall k :: k in s && k != withdrawnKey ==> s[k] == Str(STOP)
  {
    if IsWithdrawn(r, withdrawnKey) then r + StopDict(r, withdrawnKey, additionalKeys) else
      r
  }

  /** Stopping is idempotent: a second pass leaves every record as the first left it. */
  lemma SetStoppedIdempotent(r: Record, withdrawnKey: string, additionalKeys: seq<string>)
    ensures StoppedView(StoppedView(r, withdrawnKey, additionalKeys), withdrawnKey, additionalKeys)
            == StoppedView(r, withdrawnKey, additionalKeys)
  {
    var s := StoppedView(r, withdrawnKey, additionalKeys);
    if IsWithdrawn(r, withdrawnKey) {
      var t := StoppedView(s, withdrawnKey, additionalKeys);
      assert t.Keys == s.Keys;
      assert forall k :: k in t ==> t[k] == s[k];
    }
  }

  /** `ConsentUtils.set_stopped`: every record becomes its StoppedView. */
  method SetStopped(data: seq<TracedData>, withdrawnKey: string, additionalKeys: seq<string>)
    requires Distinct(data)
    modifies data
    ensures forall i :: 0 <= i < |data| ==> data[i].view == StoppedView(old(data[i].view), withdrawnKey, additionalKeys)
  {
    ghost var before := Views(data);
    for i := 0 to |data|
      invariant forall j :: 0 <= j < i ==> data[j].view == StoppedView(before[j], withdrawnKey, additionalKeys)
      invariant forall j :: i <= j < |data| ==> data[j].view == before[j]
    {
      var td := data[i];
      if withdrawnKey in td.view && td.view[withdrawnKey] == Str(TRUE) {
        td.AppendData(StopDict(td.view, withdrawnKey, additionalKeys));
      }
      assert data[i].view == StoppedView(before[i], withdrawnKey, additionalKeys);
    }
  }
}
