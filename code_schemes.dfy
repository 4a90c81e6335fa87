/** Code schemes: the closed taxonomies that coded fields are resolved against, and the
    reserved string values (control codes and matrix cells) the pipeline writes. The
    schemes themselves are loaded from files by a foreign library; here a scheme is just
    its ordered list of codes, and its three lookups are partial functions. */
module CodeSchemes {
  import opened Wrappers

  // The reserved values of `Codes` in the cleaning library.
  const STOP := "STOP"
  const TRUE := "true"
  const FALSE := "false"
  const NOT_CODED := "NC"
  const TRUE_MISSING := "NA"
  const CODING_ERROR := "CE"
  const MATRIX_0 := "0"
  const MATRIX_1 := "1"

  datatype Code = Code(codeId: string, stringValue: string, controlCode: Option<string>, matchValues: seq<string>)

  datatype Scheme = Scheme(codes: seq<Code>)

  /** Code ids are unique within a scheme, and so are control codes. */
  predicate ValidScheme(s: Scheme) {
    && (forall i, j :: 0 <= i < j < |s.codes| ==> s.codes[i].codeId != s.codes[j].codeId)
    && (forall i, j :: 0 <= i < j < |s.codes| && s.codes[i].controlCode.Some? ==>
          s.codes[i].controlCode != s.codes[j].controlCode)
  }

  /** The index of the first code of `codes` that satisfies `p`, or None when no code does. */
  function FindCode(codes: seq<Code>, p: Code -> bool): (r: Option<nat>)
    ensures r.None? <==> forall i :: 0 <= i < |codes| ==> !p(codes[i])
    ensures r.Some? ==> r.value < |codes| && p(codes[r.value])
                        && forall j :: 0 <= j < r.value ==> !p(codes[j])
  {
    if codes == [] then None
    else if p(codes[0]) then Some(0)
    else match FindCode(codes[1..], p)
      case None => None
      case Some(i) => Some(i + 1)
  }

  function CodeAt(codes: seq<Code>, r: Option<nat>): Option<Code> {
    if r.Some? && r.value < |codes| then Some(codes[r.value]) else None
  }

  /** `Scheme.get_code_with_id`: the code with the given id (a KeyError in the library). */
  function GetCodeWithId(s: Scheme, id: string): (r: Option<Code>)
    ensures r.Some? ==> r.value in s.codes && r.value.codeId == id
    ensures r.None? <==> forall c :: c in s.codes ==> c.codeId != id
  {
    CodeAt(s.codes, FindCode(s.codes, (c: Code) => c.codeId == id))
  }

  /** `Scheme.get_code_with_control_code`. */
  function GetCodeWithControlCode(s: Scheme, control: string): (r: Option<Code>)
    ensures r.Some? ==> r.value in s.codes && r.value.controlCode == Some(control)
    ensures r.None? <==> forall c :: c in s.codes ==> c.controlCode != Some(control)
  {
    CodeAt(s.codes, FindCode(s.codes, (c: Code) => c.controlCode == Some(control)))
  }

  /** `str.lower()` on ASCII text: capitals become small letters, nothing else changes. */
  function LowerAscii(s: string): (r: string)
    ensures |r| == |s|
    ensures forall i :: 0 <= i < |s| ==>
              r[i] == if 'A' <= s[i] <= 'Z' then (s[i] - 'A' + 'a') as char else s[i]
  {
    seq(|s|, i requires 0 <= i < |s| => if 'A' <= s[i] <= 'Z' then (s[i] - 'A' + 'a') as char else s[i])
  }

  /** Lower-casing twice is lower-casing once. */
  lemma LowerAsciiIdempotent(s: string)
    ensures LowerAscii(LowerAscii(s)) == LowerAscii(s)
  {
    var once := LowerAscii(s);
    forall i | 0 <= i < |s| ensures LowerAscii(once)[i] == once[i] {
      assert !('A' <= once[i] <= 'Z');
    }
  }

  /** `text` equals one of the code's match values when letter case is ignored. */
  predicate MatchesValue(c: Code, text: string) {
    exists m :: m in c.matchValues && LowerAscii(m) == LowerAscii(text)
  }

  /** The code at index `i` is the one code of `codes` that matches `text`. */
  predicate OnlyMatch(codes: seq<Code>, i: nat, text: string)
    requires i < |codes|
  {
    MatchesValue(codes[i], text) && forall j :: 0 <= j < |codes| && j != i ==> !MatchesValue(codes[j], text)
  }

  /** `Scheme.get_code_with_match_value`: the code with a match value equal to `text`
      ignoring case, when exactly one code has one; a failure when none or several do. */
  function GetCodeWithMatchValue(s: Scheme, text: string): (r: Option<Code>)
    ensures r.Some? ==> exists i :: 0 <= i < |s.codes| && OnlyMatch(s.codes, i, text) && r.value == s.codes[i]
    ensures r.None? ==> forall i :: 0 <= i < |s.codes| ==> !OnlyMatch(s.codes, i, text)
  {
    var p := (c: Code) => MatchesValue(c, text);
    var first := FindCode(s.codes, p);
    if first.None? then None
    else
      var i := first.value;
      var later := FindCode(s.codes[i + 1..], p);
      if later.Some? then
        assert s.codes[i + 1..][later.value] == s.codes[i + 1 + later.value];
        None
      else
        assert forall j :: i < j < |s.codes| ==> s.codes[i + 1..][j - i - 1] == s.codes[j];
        Some(s.codes[i])
  }

  /** The lookup ignores the letter case of the looked-up text. */
  lemma MatchValueIgnoresCase(s: Scheme, text: string)
    ensures GetCodeWithMatchValue(s, LowerAscii(text)) == GetCodeWithMatchValue(s, text)
  {
    LowerAsciiIdempotent(text);
    assert forall c :: MatchesValue(c, LowerAscii(text)) <==> MatchesValue(c, text);
    assert forall i :: 0 <= i < |s.codes| ==> (OnlyMatch(s.codes, i, LowerAscii(text)) <==> OnlyMatch(s.codes, i, text));
  }

  /** In a valid scheme the id lookup finds the one code carrying that id. */
  lemma GetCodeWithIdFindsUnique(s: Scheme, c: Code)
    requires ValidScheme(s) && c in s.codes
    ensures GetCodeWithId(s, c.codeId) == Some(c)
  {
    var r := GetCodeWithId(s, c.codeId);
    var k :| 0 <= k < |s.codes| && s.codes[k] == c;
    var i :| 0 <= i < |s.codes| && s.codes[i] == r.value;
    assert i == k;
  }

  /** The column keys a MULTIPLE configuration writes: the analysis key followed by each
      code's string value, in scheme order. */
  function MatrixColumns(key: string, s: Scheme): (cols: seq<string>)
    ensures |cols| == |s.codes|
    ensures forall i :: 0 <= i < |s.codes| ==> cols[i] == key + s.codes[i].stringValue
  {
    seq(|s.codes|, i requires 0 <= i < |s.codes| => key + s.codes[i].stringValue)
  }
}
