/**
 * The parsed JSON values the plugins receive from the agents, Python's truthiness and
 * `str()` of them, and the dictionary operations the plugins apply to a parsed object.
 */
module Json {
  import opened Wrappers
  import opened Strings

  /** A scalar JSON value as `json.loads` returns it: None, bool, int or str. */
  datatype JValue = JNull | JBool(b: bool) | JInt(i: int) | JStr(s: string)

  /** A parsed JSON object. Key order plays no part in what the plugins do with one. */
  type Record = map<string, JValue>

  /** Python's `bool(v)`. */
  predicate Truthy(v: JValue) {
    match v
    case JNull => false
    case JBool(b) => b
    case JInt(i) => i != 0
    case JStr(s) => s != []
  }

  /** Python's `str(v)`, which is also what an f-string inserts. */
  function Str(v: JValue): string {
    match v
    case JNull => "None"
    case JBool(b) => if b then "True" else "False"
    case JInt(i) => IntToString(i)
    case JStr(s) => s
  }

  /** `r.get(k)`: the value under `k`, or None when the key is missing. */
  function Lookup(r: Record, k: string): JValue {
    if k in r then r[k] else JNull
  }

  /** `[f for f in required if f not in r]`: the required keys `r` lacks, in their listed order. */
  function Missing(r: Record, required: seq<string>): (m: seq<string>)
    ensures forall i | 0 <= i < |m| :: m[i] in required && m[i] !in r
    ensures forall i | 0 <= i < |required| :: required[i] !in r ==> required[i] in m
    ensures m == [] <==> forall i | 0 <= i < |required| :: required[i] in r
  {
    if required == [] then []
    else
      var rest := Missing(r, required[1..]);
      assert forall i | 1 <= i < |required| :: required[i] == required[1..][i - 1];
      if required[0] in r then rest else [required[0]] + rest
  }

  /**
   * The missing fields keep the listed order: the fields missing from a list are those
   * missing from its first part, followed by those missing from the rest.
   */
  lemma {:induction false} MissingConcat(r: Record, a: seq<string>, b: seq<string>)
    ensures Missing(r, a + b) == Missing(r, a) + Missing(r, b)
  {
    if a != [] {
      assert (a + b)[1..] == a[1..] + b;
      MissingConcat(r, a[1..], b);
    } else {
      assert a + b == b;
    }
  }

  /** Python's `repr` of a list of field names, none of which holds a quote or a backslash. */
  function FieldList(names: seq<string>): string {
    "[" + Join(seq(|names|, i requires 0 <= i < |names| => "'" + names[i] + "'"), ", ") + "]"
  }
}
