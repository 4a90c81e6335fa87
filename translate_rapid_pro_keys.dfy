/** Translating Rapid Pro keys: each message is assigned the radio show it answered (from
    which activation flow's value key it carries), optionally re-assigned by the time it
    was sent, its Rapid Pro keys are copied to the pipeline's key names, and its message
    text is stored under the show's raw field. */
module TranslateRapidProKeys {
  import opened Wrappers
  import opened TracedDataModel
  import opened PipelineConfiguration

  const RQA_MESSAGE := "rqa_message"
  const SHOW_PIPELINE_KEY := "show_pipeline_key"

  // ---------------------------------------------------------------------------------
  // set_show_ids (src/translate_rapid_pro_keys.py:13-38)

  /** An activation remapping whose Rapid Pro key holds a value in `r`. */
  predicate Active(r: Record, rm: RapidProKeyRemapping) {
    rm.isActivationMessage && HasValue(r, rm.rapidProKey)
  }

  /** No two activation remappings hold a value in the same record. */
  predicate AtMostOneActive(r: Record, rms: seq<RapidProKeyRemapping>) {
    forall i, j :: 0 <= i < j < |rms| && Active(r, rms[i]) ==> !Active(r, rms[j])
  }

  /** The show dict of a record whose message answered the show of remapping `rm`. */
  function ShowPair(r: Record, rm: RapidProKeyRemapping): Record
    requires rm.rapidProKey in r
  {
    map[RQA_MESSAGE := r[rm.rapidProKey], SHOW_PIPELINE_KEY := Str(rm.pipelineKey)]
  }

  /** The `show_dict` of one record: the remappings are visited in order, and a second
      activation value fails the `assert`. */
  function ShowDict(r: Record, rms: seq<RapidProKeyRemapping>): Result<Record>
  {
    if rms == [] then Ok(map[])
    else
      var prev :- ShowDict(r, rms[..|rms| - 1]);
      var rm := rms[|rms| - 1];
      if !Active(r, rm) then Ok(prev)
      else if RQA_MESSAGE in prev then Err(AssertionError)
      else Ok(prev[RQA_MESSAGE := r[rm.rapidProKey]][SHOW_PIPELINE_KEY := Str(rm.pipelineKey)])
  }

  /** The show dict is empty when no activation key has a value, is the message and show
      of the one activation remapping that has one, and the `assert` fails exactly when
      two have one. */
  lemma {:induction false} ShowDictSpec(r: Record, rms: seq<RapidProKeyRemapping>)
    ensures ShowDict(r, rms).Ok? <==> AtMostOneActive(r, rms)
    ensures ShowDict(r, rms).Err? ==> ShowDict(r, rms).error == AssertionError
    ensures ShowDict(r, rms).Ok? && (forall i :: 0 <= i < |rms| ==> !Active(r, rms[i])) ==> ShowDict(r, rms).value == map[]
    ensures ShowDict(r, rms).Ok? ==>
              forall i :: 0 <= i < |rms| && Active(r, rms[i]) ==> ShowDict(r, rms).value == ShowPair(r, rms[i])
  {
    if rms != [] {
      var n := |rms| - 1;
      var pre := rms[..n];
      ShowDictSpec(r, pre);
      assert forall i :: 0 <= i < n ==> pre[i] == rms[i];
      var prev := ShowDict(r, pre);
      if prev.Ok? {
        assert RQA_MESSAGE in prev.value <==> exists i :: 0 <= i < n && Active(r, pre[i]);
      }
    }
  }

  /** One record after `set_show_ids`. */
  function ShowIdsView(r: Record, rms: seq<RapidProKeyRemapping>): Result<Record>
  {
    var d :- ShowDict(r, rms);
    Ok(r + d)
  }

  lemma {:induction false} ShowDictErrPersists(r: Record, rms: seq<RapidProKeyRemapping>, m: nat)
    requires m <= |rms| && ShowDict(r, rms[..m]).Err?
    ensures ShowDict(r, rms) == ShowDict(r, rms[..m])
  {
    if m < |rms| {
      var n := |rms| - 1;
      assert rms[..n][..m] == rms[..m];
      ShowDictErrPersists(r, rms[..n], m);
      assert ShowDict(r, rms[..n]).Err?;
      assert ShowDict(r, rms) == ShowDict(r, rms[..n]);
    } else {
      assert rms[..m] == rms;
    }
  }

  /** The loop over the remappings for one record. */
  method BuildShowDict(r: Record, rms: seq<RapidProKeyRemapping>) returns (res: Result<Record>)
    ensures res == ShowDict(r, rms)
  {
    var showDict: Record := map[];
    for i := 0 to |rms|
      invariant ShowDict(r, rms[..i]) == Ok(showDict)
    {
      assert rms[..i + 1][..i] == rms[..i];
      var rm := rms[i];
      if !rm.isActivationMessage {
        continue;
      }
      if rm.rapidProKey in r && r[rm.rapidProKey] != Null {
        if RQA_MESSAGE in showDict {
          ShowDictErrPersists(r, rms, i + 1);
          return Err(AssertionError);
        }
        showDict := showDict[RQA_MESSAGE := r[rm.rapidProKey]];
        showDict := showDict[SHOW_PIPELINE_KEY := Str(rm.pipelineKey)];
      }
    }
    assert rms[..|rms|] == rms;
    return Ok(showDict);
  }

  predicate ShowIdsAs(before: Record, after: Record, rms: seq<RapidProKeyRemapping>) {
    var v := ShowIdsView(before, rms);
    v.Ok? && after == v.value
  }

  /** `TranslateRapidProKeys.set_show_ids`. It fails with an AssertionError on a record
      carrying the values of two activation flows. */
  method SetShowIds(data: seq<TracedData>, rms: seq<RapidProKeyRemapping>) returns (outcome: Result<()>)
    requires Distinct(data)
    modifies data
    ensures outcome.Ok? <==> forall i :: 0 <= i < |data| ==> ShowIdsView(old(data[i].view), rms).Ok?
    ensures outcome.Err? ==> exists i :: 0 <= i < |data| && ShowIdsView(old(data[i].view), rms) == Err(outcome.error)
    ensures outcome.Ok? ==> forall i :: 0 <= i < |data| ==> data[i].view == ShowIdsView(old(data[i].view), rms).value
  {
    ghost var before := Views(data);
    for i := 0 to |data|
      invariant forall j :: 0 <= j < i ==> ShowIdsAs(before[j], data[j].view, rms)
      invariant forall j :: i <= j < |data| ==> data[j].view == before[j]
    {
      var td := data[i];
      var showDict := BuildShowDict(td.view, rms);
      if showDict.Err? {
        return Err(showDict.error);
      }
      td.AppendData(showDict.value);
    }
    return Ok(());
  }

  // ---------------------------------------------------------------------------------
  // _remap_radio_show_by_time_range (src/translate_rapid_pro_keys.py:40-89)

  /** Instants are microseconds since 0001-01-01T00:00:00 UTC; these are the UTC-localised
      `datetime.min` and `datetime.max`. */
  const DATETIME_MIN: int := 0
  const DATETIME_MAX: int := 315537897599999999

  /** The half-open time range [start, end); a missing bound is the beginning or the end
      of time. */
  predicate InRange(t: int, rangeStart: Option<int>, rangeEnd: Option<int>) {
    (if rangeStart.None? then DATETIME_MIN else rangeStart.value) <= t &&
    t < (if rangeEnd.None? then DATETIME_MAX else rangeEnd.value)
  }

  /** `isoparse(td[time_key])`: a TypeError when the stored value is not a string, a
      ValueError when it does not parse. */
  function ParseTime(v: Value, isoparse: string -> Option<int>): (res: Result<int>)
    ensures res.Ok? <==> v.Str? && isoparse(v.s).Some?
    ensures res.Ok? ==> res.value == isoparse(v.s).value
  {
    if !v.Str? then Err(TypeError)
    else if isoparse(v.s).None? then Err(ValueError)
    else Ok(isoparse(v.s).value)
  }

  /** Whether a record is remapped: it has a time that falls in the range. */
  function Remaps(r: Record, timeKey: string, rangeStart: Option<int>, rangeEnd: Option<int>,
                  isoparse: string -> Option<int>): Result<bool>
  {
    if timeKey !in r then Ok(false)
    else
      var t :- ParseTime(r[timeKey], isoparse);
      Ok(InRange(t, rangeStart, rangeEnd))
  }

  /** The layer appended to a remapped record. */
  function RemappedLayer(timeKey: string, showKey: string, adjustTo: Option<int>, isoformat: int -> string): Record {
    var remapped := map[SHOW_PIPELINE_KEY := Str(showKey)];
    if adjustTo.Some? then remapped[timeKey := Str(isoformat(adjustTo.value))] else remapped
  }

  /** One record after the time-range remap. */
  function TimeRemapView(r: Record, timeKey: string, showKey: string, rangeStart: Option<int>, rangeEnd: Option<int>,
                         adjustTo: Option<int>, isoparse: string -> Option<int>, isoformat: int -> string): Result<Record>
  {
    var remaps :- Remaps(r, timeKey, rangeStart, rangeEnd, isoparse);
    Ok(if remaps then r + RemappedLayer(timeKey, showKey, adjustTo, isoformat) else r)
  }

  /** Exactly the records with a time in [start, end) get the new show; their time is
      replaced only when a time to adjust to is given, and nothing else changes. A record
      without the time key is left alone; one whose time does not parse fails. */
  lemma TimeRemapSpec(r: Record, timeKey: string, showKey: string, rangeStart: Option<int>, rangeEnd: Option<int>,
                      adjustTo: Option<int>, isoparse: string -> Option<int>, isoformat: int -> string)
    ensures TimeRemapView(r, timeKey, showKey, rangeStart, rangeEnd, adjustTo, isoparse, isoformat).Ok? <==>
              timeKey !in r || (r[timeKey].Str? && isoparse(r[timeKey].s).Some?)
    ensures timeKey !in r ==> TimeRemapView(r, timeKey, showKey, rangeStart, rangeEnd, adjustTo, isoparse, isoformat) == Ok(r)
    ensures TimeRemapView(r, timeKey, showKey, rangeStart, rangeEnd, adjustTo, isoparse, isoformat).Ok? && timeKey in r ==>
              var v := TimeRemapView(r, timeKey, showKey, rangeStart, rangeEnd, adjustTo, isoparse, isoformat).value;
              var t := isoparse(r[timeKey].s).value;
              && (!InRange(t, rangeStart, rangeEnd) ==> v == r)
              && (InRange(t, rangeStart, rangeEnd) ==>
                    && v.Keys == r.Keys + {SHOW_PIPELINE_KEY}
                    && (adjustTo.None? || timeKey != SHOW_PIPELINE_KEY ==> v[SHOW_PIPELINE_KEY] == Str(showKey))
                    && (adjustTo.Some? ==> v[timeKey] == Str(isoformat(adjustTo.value)))
                    && (adjustTo.None? && timeKey != SHOW_PIPELINE_KEY ==> v[timeKey] == r[timeKey])
                    && forall k :: k in r && k != SHOW_PIPELINE_KEY && k != timeKey ==> v[k] == r[k])
  {
  }

  /** The number of records the remap moves, as `remapped_count` counts them; it is
      stated over the records' views before the remap. */
  function CountRemapped(views: seq<Record>, timeKey: string, rangeStart: Option<int>, rangeEnd: Option<int>,
                         isoparse: string -> Option<int>): (count: nat)
    ensures count <= |views|
  {
    if views == [] then 0
    else
      var rest := CountRemapped(views[..|views| - 1], timeKey, rangeStart, rangeEnd, isoparse);
      var last := Remaps(views[|views| - 1], timeKey, rangeStart, rangeEnd, isoparse);
      rest + (if last == Ok(true) then 1 else 0)
  }

  lemma CountRemappedStep(views: seq<Record>, i: nat, timeKey: string, rangeStart: Option<int>, rangeEnd: Option<int>,
                          isoparse: string -> Option<int>)
    requires i < |views|
    ensures CountRemapped(views[..i + 1], timeKey, rangeStart, rangeEnd, isoparse) ==
            CountRemapped(views[..i], timeKey, rangeStart, rangeEnd, isoparse) +
            (if Remaps(views[i], timeKey, rangeStart, rangeEnd, isoparse) == Ok(true) then 1 else 0)
  {
    assert views[..i + 1][..i] == views[..i];
  }

  predicate TimeRemappedAs(before: Record, after: Record, timeKey: string, showKey: string, rangeStart: Option<int>,
                           rangeEnd: Option<int>, adjustTo: Option<int>, isoparse: string -> Option<int>,
                           isoformat: int -> string) {
    var v := TimeRemapView(before, timeKey, showKey, rangeStart, rangeEnd, adjustTo, isoparse, isoformat);
    v.Ok? && after == v.value
  }

  /** The loop body of the remap, on one record; it says whether the record was moved. */
  method RemapOne(td: TracedData, timeKey: string, showKey: string, start: int, end: int,
                  ghost rangeStart: Option<int>, ghost rangeEnd: Option<int>, adjustTo: Option<int>,
                  isoparse: string -> Option<int>, isoformat: int -> string)
    returns (outcome: Result<bool>)
    requires start == (if rangeStart.None? then DATETIME_MIN else rangeStart.value)
    requires end == (if rangeEnd.None? then DATETIME_MAX else rangeEnd.value)
    modifies td
    ensures outcome == Remaps(old(td.view), timeKey, rangeStart, rangeEnd, isoparse)
    ensures outcome.Ok? ==>
              td.view == TimeRemapView(old(td.view), timeKey, showKey, rangeStart, rangeEnd, adjustTo, isoparse, isoformat).value
  {
    if timeKey !in td.view {
      return Ok(false);
    }
    var t := ParseTime(td.view[timeKey], isoparse);
    if t.Err? {
      return Err(t.error);
    }
    if !(start <= t.value < end) {
      return Ok(false);
    }
    var remapped := map[SHOW_PIPELINE_KEY := Str(showKey)];
    if adjustTo.Some? {
      remapped := remapped[timeKey := Str(isoformat(adjustTo.value))];
    }
    td.AppendData(remapped);
    return Ok(true);
  }

  /** `TranslateRapidProKeys._remap_radio_show_by_time_range`, returning `remapped_count`.
      It fails with the error of a record whose time cannot be read. */
  method RemapRadioShowByTimeRange(data: seq<TracedData>, timeKey: string, showKey: string,
                                   rangeStart: Option<int>, rangeEnd: Option<int>, adjustTo: Option<int>,
                                   isoparse: string -> Option<int>, isoformat: int -> string)
    returns (outcome: Result<nat>)
    requires Distinct(data)
    modifies data
    ensures outcome.Ok? <==>
              forall i :: 0 <= i < |data| ==> Remaps(old(data[i].view), timeKey, rangeStart, rangeEnd, isoparse).Ok?
    ensures outcome.Err? ==>
              exists i :: 0 <= i < |data| && Remaps(old(data[i].view), timeKey, rangeStart, rangeEnd, isoparse) == Err(outcome.error)
    ensures outcome.Ok? ==> outcome.value == CountRemapped(old(Views(data)), timeKey, rangeStart, rangeEnd, isoparse)
    ensures outcome.Ok? ==>
              forall i :: 0 <= i < |data| ==>
                data[i].view == TimeRemapView(old(data[i].view), timeKey, showKey, rangeStart, rangeEnd, adjustTo, isoparse, isoformat).value
  {
    ghost var before := Views(data);
    var start := if rangeStart.None? then DATETIME_MIN else rangeStart.value;
    var end := if rangeEnd.None? then DATETIME_MAX else rangeEnd.value;
    var remappedCount := 0;
    for i := 0 to |data|
      invariant forall j :: 0 <= j < i ==>
                  TimeRemappedAs(before[j], data[j].view, timeKey, showKey, rangeStart, rangeEnd, adjustTo, isoparse, isoformat)
      invariant forall j :: i <= j < |data| ==> data[j].view == before[j]
      invariant remappedCount == CountRemapped(before[..i], timeKey, rangeStart, rangeEnd, isoparse)
    {
      CountRemappedStep(before, i, timeKey, rangeStart, rangeEnd, isoparse);
      var moved := RemapOne(data[i], timeKey, showKey, start, end, rangeStart, rangeEnd, adjustTo, isoparse, isoformat);
      if moved.Err? {
        assert Remaps(old(data[i].view), timeKey, rangeStart, rangeEnd, isoparse) == Err(moved.error);
        return Err(moved.error);
      }
      forall j | 0 <= j < i + 1
        ensures TimeRemappedAs(before[j], data[j].view, timeKey, showKey, rangeStart, rangeEnd, adjustTo, isoparse, isoformat)
      {
        if j == i {
          assert TimeRemappedAs(before[i], data[i].view, timeKey, showKey, rangeStart, rangeEnd, adjustTo, isoparse, isoformat);
        }
      }
      if moved.value {
        remappedCount := remappedCount + 1;
      }
    }
    assert before[..|data|] == before;
    return Ok(remappedCount);
  }

  // ---------------------------------------------------------------------------------
  // remap_key_names (src/translate_rapid_pro_keys.py:107-132)

  /** A non-activation remapping whose Rapid Pro key holds a value and whose pipeline key
      the record does not have yet. */
  predicate Eligible(r: Record, rm: RapidProKeyRemapping) {
    !rm.isActivationMessage && HasValue(r, rm.rapidProKey) && rm.pipelineKey !in r
  }

  /** The `remapped` dict of one record. */
  function RemapDict(r: Record, rms: seq<RapidProKeyRemapping>): Record
  {
    if rms == [] then map[]
    else
      var prev := RemapDict(r, rms[..|rms| - 1]);
      var rm := rms[|rms| - 1];
      if Eligible(r, rm) then prev[rm.pipelineKey := r[rm.rapidProKey]] else prev
  }

  /** The remapped keys are exactly the pipeline keys of the eligible remappings, so no
      key the record already has is among them. */
  lemma {:induction false} RemapDictKeys(r: Record, rms: seq<RapidProKeyRemapping>, k: string)
    ensures k in RemapDict(r, rms) <==> exists i :: 0 <= i < |rms| && Eligible(r, rms[i]) && rms[i].pipelineKey == k
    ensures k in RemapDict(r, rms) ==> k !in r
  {
    if rms != [] {
      var n := |rms| - 1;
      RemapDictKeys(r, rms[..n], k);
      assert forall i :: 0 <= i < n ==> rms[..n][i] == rms[i];
    }
  }

  /** A remapped key holds the value of the Rapid Pro key of the last eligible remapping
      naming it. */
  lemma {:induction false} RemapDictValue(r: Record, rms: seq<RapidProKeyRemapping>, i: nat)
    requires i < |rms| && Eligible(r, rms[i])
    requires forall j :: i < j < |rms| && Eligible(r, rms[j]) ==> rms[j].pipelineKey != rms[i].pipelineKey
    ensures rms[i].pipelineKey in RemapDict(r, rms)
    ensures RemapDict(r, rms)[rms[i].pipelineKey] == r[rms[i].rapidProKey]
  {
    var n := |rms| - 1;
    if i < n {
      RemapDictValue(r, rms[..n], i);
    }
  }

  /** One record after `remap_key_names`. */
  function KeyNamesView(r: Record, rms: seq<RapidProKeyRemapping>): Record {
    r + RemapDict(r, rms)
  }

  /** `remap_key_names` never overwrites a key the record has. */
  lemma KeyNamesNeverOverwrite(r: Record, rms: seq<RapidProKeyRemapping>)
    ensures forall k :: k in r ==> k in KeyNamesView(r, rms) && KeyNamesView(r, rms)[k] == r[k]
  {
    forall k | k in r
      ensures k !in RemapDict(r, rms)
    {
      RemapDictKeys(r, rms, k);
    }
  }

  /** The loop over the remappings for one record. */
  method BuildRemapDict(r: Record, rms: seq<RapidProKeyRemapping>) returns (remapped: Record)
    ensures remapped == RemapDict(r, rms)
  {
    remapped := map[];
    for i := 0 to |rms|
      invariant remapped == RemapDict(r, rms[..i])
    {
      assert rms[..i + 1][..i] == rms[..i];
      var rm := rms[i];
      if rm.isActivationMessage {
        continue;
      }
      var oldKey := rm.rapidProKey;
      var newKey := rm.pipelineKey;
      if oldKey in r && r[oldKey] != Null && newKey !in r {
        remapped := remapped[newKey := r[oldKey]];
      }
    }
    assert rms[..|rms|] == rms;
  }

  predicate KeyNamesAs(before: Record, after: Record, rms: seq<RapidProKeyRemapping>) {
    after == KeyNamesView(before, rms)
  }

  /** `TranslateRapidProKeys.remap_key_names`. */
  method RemapKeyNames(data: seq<TracedData>, rms: seq<RapidProKeyRemapping>)
    requires Distinct(data)
    modifies data
    ensures forall i :: 0 <= i < |data| ==> data[i].view == KeyNamesView(old(data[i].view), rms)
  {
    ghost var before := Views(data);
    for i := 0 to |data|
      invariant forall j :: 0 <= j < i ==> KeyNamesAs(before[j], data[j].view, rms)
      invariant forall j :: i <= j < |data| ==> data[j].view == before[j]
    {
      var td := data[i];
      var remapped := BuildRemapDict(td.view, rms);
      td.AppendData(remapped);
    }
  }

  // ---------------------------------------------------------------------------------
  // set_rqa_raw_keys_from_show_ids (src/translate_rapid_pro_keys.py:134-152)

  /** One record after `set_rqa_raw_keys_from_show_ids`: the message is stored under the
      key its show names. A record with a show but no message is a KeyError; a show that
      is not a string cannot name a key. */
  function RawKeyView(r: Record): (res: Result<Record>)
    ensures SHOW_PIPELINE_KEY !in r ==> res == Ok(r)
    ensures SHOW_PIPELINE_KEY in r ==>
              (res.Ok? <==> RQA_MESSAGE in r && r[SHOW_PIPELINE_KEY].Str?)
    ensures SHOW_PIPELINE_KEY in r && RQA_MESSAGE !in r ==> res == Err(KeyError(RQA_MESSAGE))
    ensures SHOW_PIPELINE_KEY in r && res.Ok? ==>
              && res.value.Keys == r.Keys + {r[SHOW_PIPELINE_KEY].s}
              && res.value[r[SHOW_PIPELINE_KEY].s] == r[RQA_MESSAGE]
              && forall k :: k in r && k != r[SHOW_PIPELINE_KEY].s ==> res.value[k] == r[k]
  {
    if SHOW_PIPELINE_KEY !in r then Ok(r)
    else if RQA_MESSAGE !in r then Err(KeyError(RQA_MESSAGE))
    else if !r[SHOW_PIPELINE_KEY].Str? then Err(TypeError)
    else Ok(r + map[r[SHOW_PIPELINE_KEY].s := r[RQA_MESSAGE]])
  }

  predicate RawKeyAs(before: Record, after: Record) {
    var v := RawKeyView(before);
    v.Ok? && after == v.value
  }

  /** `TranslateRapidProKeys.set_rqa_raw_keys_from_show_ids`. */
  method SetRqaRawKeysFromShowIds(data: seq<TracedData>) returns (outcome: Result<()>)
    requires Distinct(data)
    modifies data
    ensures outcome.Ok? <==> forall i :: 0 <= i < |data| ==> RawKeyView(old(data[i].view)).Ok?
    ensures outcome.Err? ==> exists i :: 0 <= i < |data| && RawKeyView(old(data[i].view)) == Err(outcome.error)
    ensures outcome.Ok? ==> forall i :: 0 <= i < |data| ==> data[i].view == RawKeyView(old(data[i].view)).value
  {
    ghost var before := Views(data);
    for i := 0 to |data|
      invariant forall j :: 0 <= j < i ==> RawKeyAs(before[j], data[j].view)
      invariant forall j :: i <= j < |data| ==> data[j].view == before[j]
    {
      var td := data[i];
      if SHOW_PIPELINE_KEY in td.view {
        if RQA_MESSAGE !in td.view {
          return Err(KeyError(RQA_MESSAGE));
        }
        if !td.view[SHOW_PIPELINE_KEY].Str? {
          return Err(TypeError);
        }
        td.AppendData(map[td.view[SHOW_PIPELINE_KEY].s := td.view[RQA_MESSAGE]]);
      }
    }
    return Ok(());
  }

  // ---------------------------------------------------------------------------------
  // translate_rapid_pro_keys (src/translate_rapid_pro_keys.py:154-177)

  /** One record after the whole stage. `remap_radio_shows` has no implementation, so
      the stages that change anything are the show ids, the key names and the raw keys. */
  function TranslateView(r: Record, rms: seq<RapidProKeyRemapping>): Result<Record>
  {
    var shown :- ShowIdsView(r, rms);
    RawKeyView(KeyNamesView(shown, rms))
  }

  /** A message that answered the show of activation remapping `i` ends with its text
      under that show's pipeline key, whatever the key renaming did; two activation values
      in one record fail the stage. */
  lemma TranslateShowMessage(r: Record, rms: seq<RapidProKeyRemapping>, i: nat)
    requires i < |rms| && Active(r, rms[i]) && AtMostOneActive(r, rms)
    ensures TranslateView(r, rms).Ok?
    ensures rms[i].pipelineKey in TranslateView(r, rms).value
    ensures TranslateView(r, rms).value[rms[i].pipelineKey] == r[rms[i].rapidProKey]
  {
    ShowDictSpec(r, rms);
    var shown := ShowIdsView(r, rms).value;
    assert shown[SHOW_PIPELINE_KEY] == Str(rms[i].pipelineKey) && shown[RQA_MESSAGE] == r[rms[i].rapidProKey];
    KeyNamesNeverOverwrite(shown, rms);
  }

  /** Two activation values in one record fail the stage with an AssertionError. */
  lemma TranslateTwoShowsFails(r: Record, rms: seq<RapidProKeyRemapping>)
    requires !AtMostOneActive(r, rms)
    ensures TranslateView(r, rms) == Err(AssertionError)
  {
    ShowDictSpec(r, rms);
  }

  predicate TranslatedAs(before: Record, after: Record, rms: seq<RapidProKeyRemapping>) {
    var v := TranslateView(before, rms);
    v.Ok? && after == v.value
  }

  /** `TranslateRapidProKeys.translate_rapid_pro_keys`: the stages in order. */
  method TranslateRapidProKeys(data: seq<TracedData>, rms: seq<RapidProKeyRemapping>) returns (outcome: Result<()>)
    requires Distinct(data)
    modifies data
    ensures outcome.Ok? <==> forall i :: 0 <= i < |data| ==> TranslateView(old(data[i].view), rms).Ok?
    ensures outcome.Err? ==> exists i :: 0 <= i < |data| && TranslateView(old(data[i].view), rms) == Err(outcome.error)
    ensures outcome.Ok? ==> forall i :: 0 <= i < |data| ==> data[i].view == TranslateView(old(data[i].view), rms).value
  {
    ghost var v0 := Views(data);
    outcome := SetShowIds(data, rms);
    if outcome.Err? {
      return;
    }
    // remap_radio_shows: no implementation.
    RemapKeyNames(data, rms);
    outcome := SetRqaRawKeysFromShowIds(data);
  }
}
