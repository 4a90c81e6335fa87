/** Records ("traced data"): the per-message or per-respondent unit every stage works on.
    A record is mutated only by appending a layer of key/value pairs that shadows earlier
    values; reads see the newest value of each key. Provenance metadata and timestamps of
    the layers are not modelled, so a record is its current view: a map from key to value. */
module TracedDataModel {
  import opened Wrappers

  /** The values the pipeline stores under a record key. A label is the dict the coding
      tools write for one applied code; it is modelled by its `CodeID`. */
  datatype Value =
    | Str(s: string)
    | Flag(b: bool)
    | Null
    | Coded(codeId: string)
    | CodedList(codeIds: seq<string>)

  type Record = map<string, Value>

  /** Python truthiness of a stored value. A label dict is never empty. */
  predicate Truthy(v: Value) {
    match v
    case Str(s) => s != ""
    case Flag(b) => b
    case Null => false
    case Coded(_) => true
    case CodedList(ids) => ids != []
  }

  /** `td.get(k, default)`. */
  function Get(r: Record, k: string, default: Value): (v: Value)
    ensures k in r ==> v == r[k]
    ensures k !in r ==> v == default
  {
    if k in r then r[k] else default
  }

  /** `td.get(k) is not None`. */
  predicate HasValue(r: Record, k: string) {
    k in r && r[k] != Null
  }

  /** `td[k]["CodeID"]`: a KeyError when k is absent, a TypeError when the value there is
      not a label dict. */
  function CodeIdAt(r: Record, k: string): (res: Result<string>)
    ensures res.Ok? <==> k in r && r[k].Coded?
    ensures res.Ok? ==> res.value == r[k].codeId
  {
    if k !in r then Err(KeyError(k))
    else if !r[k].Coded? then Err(TypeError)
    else Ok(r[k].codeId)
  }

  /** One record. `append_data` is its only mutator. */
  class TracedData {
    var view: Record

    constructor (d: Record)
      ensures view == d
    {
      view := d;
    }

    /** `append_data(d)`: the new layer shadows every key it names. */
    method AppendData(d: Record)
      modifies this
      ensures view == old(view) + d
    {
      view := view + d;
    }
  }

  /** No record object appears twice in a dataset. */
  predicate Distinct(data: seq<TracedData>) {
    forall i, j :: 0 <= i < j < |data| ==> data[i] != data[j]
  }

  /** The current views of a dataset's records, in order. */
  function Views(data: seq<TracedData>): (vs: seq<Record>)
    reads data
    ensures |vs| == |data|
    ensures forall i :: 0 <= i < |data| ==> vs[i] == data[i].view
  {
    if data == [] then [] else [data[0].view] + Views(data[1..])
  }
}
