/** The contact-list exporters: partition respondents by the district they reported into a
    Bossaso set and a Baidoa set of uids, then turn each set into a list of "+"-prefixed
    phone numbers, one per uid. The phone-number table (a Firestore collection or a local
    JSON file) is a parameter: a map from uid to number. */
module ContactLists {
  import opened Wrappers
  import opened CodeSchemes
  import opened TracedDataModel
  import opened Sequences

  const DISTRICT_KEY := "district_coded"
  const UID := "uid"
  const BOSSASO := "bossaso"
  const BAIDOA := "baidoa"

  /** Where one record sends its uid. */
  datatype Place = Skipped | Bossaso | Baidoa | Elsewhere

  /** The district decision for one record. A record whose district is the string "STOP" is
      skipped; otherwise its label's code id is compared with the code matching "bossaso" and,
      only when that differs, with the code matching "baidoa". A missing district, a district
      that is not a label, or a scheme where the looked-up match value picks out no single
      code is an error. */
  function PlaceOf(r: Record, district: Scheme): (res: Result<Place>)
    ensures res == Ok(Skipped) <==> DISTRICT_KEY in r && r[DISTRICT_KEY] == Str(STOP)
    ensures res == Ok(Bossaso) <==>
              && DISTRICT_KEY in r && r[DISTRICT_KEY].Coded?
              && GetCodeWithMatchValue(district, BOSSASO).Some?
              && r[DISTRICT_KEY].codeId == GetCodeWithMatchValue(district, BOSSASO).value.codeId
    ensures res == Ok(Baidoa) <==>
              && DISTRICT_KEY in r && r[DISTRICT_KEY].Coded?
              && GetCodeWithMatchValue(district, BOSSASO).Some?
              && r[DISTRICT_KEY].codeId != GetCodeWithMatchValue(district, BOSSASO).value.codeId
              && GetCodeWithMatchValue(district, BAIDOA).Some?
              && r[DISTRICT_KEY].codeId == GetCodeWithMatchValue(district, BAIDOA).value.codeId
    ensures DISTRICT_KEY !in r ==> res == Err(KeyError(DISTRICT_KEY))
    ensures DISTRICT_KEY in r && r[DISTRICT_KEY] != Str(STOP) && !r[DISTRICT_KEY].Coded? ==> res == Err(TypeError)
    ensures DISTRICT_KEY in r && r[DISTRICT_KEY].Coded? && GetCodeWithMatchValue(district, BOSSASO).None? ==>
              res == Err(KeyError(BOSSASO))
  {
    if DISTRICT_KEY !in r then Err(KeyError(DISTRICT_KEY))
    else if r[DISTRICT_KEY] == Str(STOP) then Ok(Skipped)
    else
      match CodeIdAt(r, DISTRICT_KEY)
      case Err(e) => Err(e)
      case Ok(id) =>
        match GetCodeWithMatchValue(district, BOSSASO)
        case None => Err(KeyError(BOSSASO))
        case Some(b) =>
          if id == b.codeId then Ok(Bossaso)
          else
            match GetCodeWithMatchValue(district, BAIDOA)
            case None => Err(KeyError(BAIDOA))
            case Some(c) => if id == c.codeId then Ok(Baidoa) else Ok(Elsewhere)
  }

  /** The two uid sets. */
  datatype Districts = Districts(bossaso: set<Value>, baidoa: set<Value>)

  /** A record sends its uid somewhere, and so must carry one. */
  predicate Counted(p: Place) {
    p == Bossaso || p == Baidoa
  }

  /** The sets after the records, in order; the first failing record's error otherwise. */
  function Partition(records: seq<Record>, district: Scheme): Result<Districts> {
    if records == [] then Ok(Districts({}, {}))
    else
      var r := records[|records| - 1];
      match Partition(records[..|records| - 1], district)
      case Err(e) => Err(e)
      case Ok(sets) =>
        match PlaceOf(r, district)
        case Err(e) => Err(e)
        case Ok(place) =>
          if !Counted(place) then Ok(sets)
          else if UID !in r then Err(KeyError(UID))
          else if place == Bossaso then Ok(sets.(bossaso := sets.bossaso + {r[UID]}))
          else Ok(sets.(baidoa := sets.baidoa + {r[UID]}))
  }

  /** Every record can be placed, and every record that is placed in a district has a uid. */
  predicate Placeable(records: seq<Record>, district: Scheme) {
    forall i :: 0 <= i < |records| ==>
      PlaceOf(records[i], district).Ok? && (Counted(PlaceOf(records[i], district).value) ==> UID in records[i])
  }

  /** Record `r` was placed in `place` and carries uid `u`. */
  predicate Placed(r: Record, district: Scheme, place: Place, u: Value) {
    PlaceOf(r, district) == Ok(place) && UID in r && r[UID] == u
  }

  /** Some record of `records` was placed in `place` and carries uid `u`. */
  predicate SomePlaced(records: seq<Record>, district: Scheme, place: Place, u: Value) {
    exists i :: 0 <= i < |records| && Placed(records[i], district, place, u)
  }

  /** A record was placed before the last one, or is the last one. */
  lemma SomePlacedLast(records: seq<Record>, district: Scheme, place: Place, u: Value)
    requires records != []
    ensures var n := |records| - 1;
            SomePlaced(records, district, place, u) <==>
            SomePlaced(records[..n], district, place, u) || Placed(records[n], district, place, u)
  {
    var n := |records| - 1;
    ExistsLast(records, records[..n], r => Placed(r, district, place, u));
  }

  /** The set of a district. */
  function SetOf(sets: Districts, place: Place): set<Value> {
    if place == Bossaso then sets.bossaso else sets.baidoa
  }

  /** How the partition unfolds on its last record. */
  lemma PartitionLast(records: seq<Record>, district: Scheme)
    requires records != []
    ensures var pre := Partition(records[..|records| - 1], district);
            var r := records[|records| - 1];
            var place := PlaceOf(r, district);
            Partition(records, district) ==
              if pre.Err? then pre
              else if place.Err? then Err(place.error)
              else if !Counted(place.value) then pre
              else if UID !in r then Err(KeyError(UID))
              else if place.value == Bossaso then Ok(pre.value.(bossaso := pre.value.bossaso + {r[UID]}))
              else Ok(pre.value.(baidoa := pre.value.baidoa + {r[UID]}))
  {
  }

  /** One more record adds its uid to the set of the district it was placed in, and to no
      other set. */
  lemma PartitionMembersStep(records: seq<Record>, district: Scheme, place: Place)
    requires records != [] && Partition(records, district).Ok? && Counted(place)
    ensures Partition(records[..|records| - 1], district).Ok?
    ensures forall u :: u in SetOf(Partition(records, district).value, place) <==>
              u in SetOf(Partition(records[..|records| - 1], district).value, place)
              || Placed(records[|records| - 1], district, place, u)
  {
    PartitionLast(records, district);
  }

  /** The partition succeeds exactly when every record is placeable. */
  lemma {:induction false} PartitionOk(records: seq<Record>, district: Scheme)
    ensures Partition(records, district).Ok? <==> Placeable(records, district)
  {
    if records != [] {
      var n := |records| - 1;
      PartitionLast(records, district);
      PartitionOk(records[..n], district);
      assert forall i :: 0 <= i < n ==> records[..n][i] == records[i];
    }
  }

  /** On success, a uid is in a district's set iff some record with that uid was placed
      there. */
  lemma {:induction false} PartitionMembers(records: seq<Record>, district: Scheme, place: Place)
    requires Partition(records, district).Ok? && Counted(place)
    ensures forall u :: u in SetOf(Partition(records, district).value, place) <==> SomePlaced(records, district, place, u)
  {
    if records != [] {
      var n := |records| - 1;
      var pre := records[..n];
      PartitionMembersStep(records, district, place);
      PartitionMembers(pre, district, place);
      forall u ensures SomePlaced(records, district, place, u) <==>
                       SomePlaced(pre, district, place, u) || Placed(records[n], district, place, u) {
        SomePlacedLast(records, district, place, u);
      }
    }
  }

  /** What the partition computes: it succeeds exactly when every record is placeable, and a
      uid is in a district's set iff some record with that uid was placed there. */
  lemma PartitionSpec(records: seq<Record>, district: Scheme)
    ensures Partition(records, district).Ok? <==> Placeable(records, district)
    ensures Partition(records, district).Ok? ==>
              forall u :: u in Partition(records, district).value.bossaso <==> SomePlaced(records, district, Bossaso, u)
    ensures Partition(records, district).Ok? ==>
              forall u :: u in Partition(records, district).value.baidoa <==> SomePlaced(records, district, Baidoa, u)
  {
    PartitionOk(records, district);
    if Partition(records, district).Ok? {
      PartitionMembers(records, district, Bossaso);
      PartitionMembers(records, district, Baidoa);
    }
  }

  /** A respondent who reported Bossaso in one message and Baidoa in another is on both
      lists: the `elif` separates the districts per record, not per uid. */
  lemma BothDistricts(r1: Record, r2: Record, district: Scheme)
    requires PlaceOf(r1, district) == Ok(Bossaso) && PlaceOf(r2, district) == Ok(Baidoa)
    requires UID in r1 && UID in r2 && r1[UID] == r2[UID]
    ensures Partition([r1, r2], district).Ok?
    ensures r1[UID] in Partition([r1, r2], district).value.bossaso
    ensures r1[UID] in Partition([r1, r2], district).value.baidoa
  {
    var none: seq<Record> := [];
    var one := [r1];
    assert [r1, r2][..1] == one;
    assert one[..0] == none;
    assert Partition(one, district).Ok?;
    assert Partition(one, district).value.bossaso == {r1[UID]};
  }

  /** STOP records never reach a list: dropping them does not change the partition. */
  lemma {:induction false} StopRecordsIgnored(records: seq<Record>, r: Record, district: Scheme)
    requires DISTRICT_KEY in r && r[DISTRICT_KEY] == Str(STOP)
    ensures Partition(records + [r], district) == Partition(records, district)
  {
    assert (records + [r])[..|records|] == records;
  }

  /** The loop over records adding uids to the two sets. */
  method PartitionContacts(records: seq<Record>, district: Scheme) returns (res: Result<Districts>)
    ensures res == Partition(records, district)
  {
    var bossaso: set<Value> := {};
    var baidoa: set<Value> := {};
    for i := 0 to |records|
      invariant Partition(records[..i], district) == Ok(Districts(bossaso, baidoa))
    {
      var r := records[i];
      assert records[..i + 1][..i] == records[..i];
      assert records[..i + 1][i] == r;
      var place := PlaceOf(r, district);
      if place.Err? {
        PartitionErrPersists(records, i + 1, district);
        return Err(place.error);
      }
      if Counted(place.value) {
        if UID !in r {
          PartitionErrPersists(records, i + 1, district);
          return Err(KeyError(UID));
        }
        if place.value == Bossaso {
          bossaso := bossaso + {r[UID]};
        } else {
          baidoa := baidoa + {r[UID]};
        }
      }
    }
    assert records[..|records|] == records;
    return Ok(Districts(bossaso, baidoa));
  }

  /** Once a prefix of the records fails, the whole partition fails with the same error. */
  lemma {:induction false} PartitionErrPersists(records: seq<Record>, m: nat, district: Scheme)
    requires m <= |records| && Partition(records[..m], district).Err?
    ensures Partition(records, district) == Partition(records[..m], district)
  {
    if m < |records| {
      var n := |records| - 1;
      assert records[..n][..m] == records[..m];
      PartitionErrPersists(records[..n], m, district);
      assert Partition(records[..n], district).Err?;
      assert Partition(records, district) == Partition(records[..n], district);
    } else {
      assert records[..m] == records;
    }
  }

  /** The missing-uid error of a failed lookup: the uid itself when it is a string. */
  function LookupError(u: Value): Error {
    KeyError(if u.Str? then u.s else UID)
  }

  /** The uids of `order` are pairwise distinct. */
  predicate DistinctUids(order: seq<Value>) {
    forall i, j :: 0 <= i < j < |order| ==> order[i] != order[j]
  }

  /** `[f"+{phone(uuid)}" for uuid in uuids]`: one number per uid, each the looked-up
      number with a leading "+". `order` is the order in which the set was iterated, which
      the source leaves unspecified. A uid missing from the table is a KeyError. */
  method PhoneNumbers(uids: set<Value>, phones: map<Value, string>) returns (res: Result<seq<string>>, order: seq<Value>)
    ensures res.Ok? <==> uids <= phones.Keys
    ensures res.Err? ==> exists u :: u in uids && u !in phones && res.error == LookupError(u)
    ensures res.Ok? ==> DistinctUids(order) && (forall u :: u in order <==> u in uids)
    ensures res.Ok? ==> |res.value| == |order| == |uids|
    ensures res.Ok? ==> forall i :: 0 <= i < |order| ==> order[i] in phones && res.value[i] == "+" + phones[order[i]]
  {
    var numbers: seq<string> := [];
    var remaining := uids;
    order := [];
    while remaining != {}
      invariant remaining <= uids
      invariant forall u :: u in order <==> u in uids && u !in remaining
      invariant DistinctUids(order)
      invariant |order| + |remaining| == |uids|
      invariant |numbers| == |order|
      invariant forall i :: 0 <= i < |order| ==> order[i] in phones && numbers[i] == "+" + phones[order[i]]
      decreases |remaining|
    {
      var u :| u in remaining;
      if u !in phones {
        return Err(LookupError(u)), order;
      }
      numbers := numbers + ["+" + phones[u]];
      order := order + [u];
      remaining := remaining - {u};
    }
    return Ok(numbers), order;
  }

  /** `uuid_to_data_batch(list(bossaso) + list(baidoa))`: the table restricted to the uids
      of both sets, fetched in one request. */
  method PhoneBatch(sets: Districts, phones: map<Value, string>) returns (res: Result<map<Value, string>>)
    ensures res.Ok? <==> sets.bossaso + sets.baidoa <= phones.Keys
    ensures res.Err? ==> exists u :: u in sets.bossaso + sets.baidoa && u !in phones && res.error == LookupError(u)
    ensures res.Ok? ==> res.value.Keys == sets.bossaso + sets.baidoa
    ensures res.Ok? ==> forall u :: u in res.value ==> u in phones && res.value[u] == phones[u]
  {
    var wanted := sets.bossaso + sets.baidoa;
    if !(wanted <= phones.Keys) {
      var u :| u in wanted && u !in phones;
      return Err(LookupError(u));
    }
    return Ok(map u | u in wanted :: phones[u]);
  }

  /** The two lists one exporter writes: Bossaso's numbers and Baidoa's numbers. */
  datatype Lists = Lists(bossaso: seq<string>, baidoa: seq<string>)

  /** Each list holds, in some order, exactly one "+"-prefixed number per uid of its set. */
  ghost predicate ListsFor(lists: Lists, sets: Districts, phones: map<Value, string>) {
    && NumbersFor(lists.bossaso, sets.bossaso, phones)
    && NumbersFor(lists.baidoa, sets.baidoa, phones)
  }

  /** `numbers` is one "+"-prefixed number per uid of `uids`, in some order. */
  ghost predicate NumbersFor(numbers: seq<string>, uids: set<Value>, phones: map<Value, string>) {
    && uids <= phones.Keys
    && |numbers| == |uids|
    && exists order: seq<Value> ::
         && |order| == |numbers|
         && DistinctUids(order)
         && (forall u :: u in order <==> u in uids)
         && (forall i :: 0 <= i < |order| ==> order[i] in phones && numbers[i] == "+" + phones[order[i]])
  }

  /** Numbers formatted from the fetched batch are the numbers of the full table. */
  lemma NumbersThroughBatch(numbers: seq<string>, order: seq<Value>, uids: set<Value>,
                            batch: map<Value, string>, phones: map<Value, string>)
    requires uids <= batch.Keys
    requires forall u :: u in batch ==> u in phones && batch[u] == phones[u]
    requires |numbers| == |order| == |uids| && DistinctUids(order) && (forall u :: u in order <==> u in uids)
    requires forall i :: 0 <= i < |order| ==> order[i] in batch && numbers[i] == "+" + batch[order[i]]
    ensures NumbersFor(numbers, uids, phones)
  {
    assert forall i :: 0 <= i < |order| ==> order[i] in phones && numbers[i] == "+" + phones[order[i]];
  }

  /** The exporter of the UNDP-RCO messages: partition, one batch lookup of both sets'
      uids, then one list per district. */
  method ExportUndpRcoContactLists(records: seq<Record>, district: Scheme, phones: map<Value, string>)
    returns (res: Result<Lists>, sets: Districts)
    ensures Partition(records, district).Err? ==> res == Partition(records, district).PropagateFailure()
    ensures Partition(records, district).Ok? ==> sets == Partition(records, district).value
    ensures res.Ok? <==> Partition(records, district).Ok? && sets.bossaso + sets.baidoa <= phones.Keys
    ensures res.Ok? ==> ListsFor(res.value, sets, phones)
  {
    var partition := PartitionContacts(records, district);
    if partition.Err? {
      return Err(partition.error), Districts({}, {});
    }
    sets := partition.value;
    var batch := PhoneBatch(sets, phones);
    if batch.Err? {
      return Err(batch.error), sets;
    }
    var bossaso, bossasoOrder := PhoneNumbers(sets.bossaso, batch.value);
    var baidoa, baidoaOrder := PhoneNumbers(sets.baidoa, batch.value);
    // The batch holds every uid of both sets, so neither list's lookups fail.
    assert bossaso.Ok? && baidoa.Ok?;
    NumbersThroughBatch(bossaso.value, bossasoOrder, sets.bossaso, batch.value, phones);
    NumbersThroughBatch(baidoa.value, baidoaOrder, sets.baidoa, batch.value, phones);
    return Ok(Lists(bossaso.value, baidoa.value)), sets;
  }

  /** The exporter of the ADSS data: partition, then each uid looked up one by one in the
      local table, the Bossaso list first. */
  method ExportAdssContactLists(records: seq<Record>, district: Scheme, phones: map<Value, string>)
    returns (res: Result<Lists>, sets: Districts)
    ensures Partition(records, district).Err? ==> res == Partition(records, district).PropagateFailure()
    ensures Partition(records, district).Ok? ==> sets == Partition(records, district).value
    ensures res.Ok? <==> Partition(records, district).Ok? && sets.bossaso + sets.baidoa <= phones.Keys
    ensures res.Ok? ==> ListsFor(res.value, sets, phones)
    ensures res.Err? && Partition(records, district).Ok? && !(sets.bossaso <= phones.Keys) ==>
              exists u :: u in sets.bossaso && u !in phones && res.error == LookupError(u)
  {
    var partition := PartitionContacts(records, district);
    if partition.Err? {
      return Err(partition.error), Districts({}, {});
    }
    sets := partition.value;
    var bossaso, bossasoOrder := PhoneNumbers(sets.bossaso, phones);
    if bossaso.Err? {
      return Err(bossaso.error), sets;
    }
    var baidoa, baidoaOrder := PhoneNumbers(sets.baidoa, phones);
    if baidoa.Err? {
      return Err(baidoa.error), sets;
    }
    NumbersThroughBatch(bossaso.value, bossasoOrder, sets.bossaso, phones, phones);
    NumbersThroughBatch(baidoa.value, baidoaOrder, sets.baidoa, phones, phones);
    return Ok(Lists(bossaso.value, baidoa.value)), sets;
  }
}
