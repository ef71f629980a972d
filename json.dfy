/** Values as the node's JSON files and Python dictionaries hold them. */
module Json {

  datatype Option<+T> = None | Some(value: T)

  /** A scalar JSON value (Python None, bool, int, float, str). */
  datatype Value = Null | Bool(b: bool) | Int(i: int) | Real(x: real) | Str(s: string)

  /** A JSON object / Python dict whose values are scalars. */
  type Record = map<string, Value>

  /** Python truthiness of a scalar. */
  predicate Truthy(v: Value) {
    match v
    case Null => false
    case Bool(b) => b
    case Int(i) => i != 0
    case Real(x) => x != 0.0
    case Str(s) => s != ""
  }

  /** `d.get(key, default)` */
  function Get(r: Record, key: string, default: Value): Value {
    if key in r then r[key] else default
  }

  /** `dict(pairs)`, a dictionary written key by key in insertion order: a later pair
      overrides an earlier one with the same key. */
  function FromPairs(pairs: seq<(string, Value)>): Record {
    if pairs == [] then map[]
    else FromPairs(pairs[..|pairs| - 1])[pairs[|pairs| - 1].0 := pairs[|pairs| - 1].1]
  }

  /** The keys are the keys of the pairs. */
  lemma {:induction false} FromPairsKeys(pairs: seq<(string, Value)>)
    ensures FromPairs(pairs).Keys == set j | 0 <= j < |pairs| :: pairs[j].0
  {
    if pairs != [] {
      var n := |pairs| - 1;
      FromPairsKeys(pairs[..n]);
      assert (set j | 0 <= j < |pairs| :: pairs[j].0) == (set j | 0 <= j < n :: pairs[..n][j].0) + {pairs[n].0} by {
        forall j | 0 <= j < n ensures pairs[..n][j].0 == pairs[j].0 { }
      }
    }
  }

  /** A key holds the value of its last pair. */
  lemma {:induction false} FromPairsAt(pairs: seq<(string, Value)>, j: nat)
    requires j < |pairs|
    requires forall l :: j < l < |pairs| ==> pairs[l].0 != pairs[j].0
    ensures pairs[j].0 in FromPairs(pairs) && FromPairs(pairs)[pairs[j].0] == pairs[j].1
  {
    var n := |pairs| - 1;
    if j < n {
      assert pairs[..n][j] == pairs[j];
      forall l | j < l < n ensures pairs[..n][l].0 != pairs[..n][j].0 {
        assert pairs[..n][l] == pairs[l];
      }
      FromPairsAt(pairs[..n], j);
    }
  }

  function DigitChar(d: nat): char
    requires d < 10
  {
    "0123456789"[d]
  }

  function DigitsText(n: nat): string
    decreases n
  {
    if n < 10 then [DigitChar(n)] else DigitsText(n / 10) + [DigitChar(n % 10)]
  }

  /** `str(i)` for a Python int. */
  function IntText(i: int): string {
    if i < 0 then "-" + DigitsText(-i) else DigitsText(i)
  }

  /** `str(v)` as an f-string renders it; the text of a float is left to `realText`. */
  function Show(v: Value, realText: real -> string): string {
    match v
    case Null => "None"
    case Bool(b) => if b then "True" else "False"
    case Int(i) => IntText(i)
    case Real(x) => realText(x)
    case Str(s) => s
  }

  /** An f-string: its literal parts and the `str()` of its fields, joined in order. */
  function Format(parts: seq<string>): string {
    if parts == [] then "" else parts[0] + Format(parts[1..])
  }

  /** The parts of a template from `k` on render as part `k` followed by the rest. */
  lemma FormatStep(parts: seq<string>, k: nat)
    requires k < |parts|
    ensures Format(parts[k..]) == parts[k] + Format(parts[k + 1..])
  {
    assert parts[k..][1..] == parts[k + 1..];
  }

  /** What opening and parsing one of the node's local JSON array files gives. */
  datatype FileState =
    | Missing                        // FileNotFoundError
    | Blank                          // only whitespace
    | Unreadable                     // any other error while reading or decoding
    | Content(records: seq<Record>)  // a JSON array of objects

  /** The load rule shared by the acquisition side and the sync side:
      a missing, blank or unreadable file is an empty list. */
  function LoadRecords(f: FileState): (rs: seq<Record>)
    ensures f.Content? ==> rs == f.records
    ensures !f.Content? ==> rs == []
  {
    match f
    case Content(records) => records
    case _ => []
  }
}
