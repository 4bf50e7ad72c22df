/**
  Document field values. Elasticsearch documents and the dictionaries the tasks pass
  around are maps from field name to a JSON-like scalar.
 */
module Values {
  import opened Wrappers
  import opened Text

  datatype Value =
    | Null                 // Python None / JSON null
    | Bool(b: bool)
    | Int(i: int)
    | Str(s: string)
    | Time(secs: int)      // a datetime (or its ISO string in a stored document), in seconds
    | Samples(xs: seq<int>) // a numpy statistic over these throughput samples; only its presence is modelled

  /** A document or dictionary: field name to value. Python's `{**a, **b}` is `a + b`. */
  type Doc = map<string, Value>

  /** `d.get(k)`. */
  function Get(d: Doc, k: string): Option<Value>
  {
    if k in d then Some(d[k]) else None
  }

  /** Python truthiness. */
  predicate Truthy(v: Value)
  {
    match v
    case Null => false
    case Bool(b) => b
    case Int(i) => i != 0
    case Str(s) => s != ""
    case Time(_) => true
    case Samples(xs) => xs != []
  }

  function RenderInts(xs: seq<int>): string
  {
    if xs == [] then "" else if |xs| == 1 then IntToString(xs[0])
    else IntToString(xs[0]) + ", " + RenderInts(xs[1..])
  }

  /** `'{}'.format(v)`; a datetime renders as its number of seconds. */
  function Render(v: Value): string
  {
    match v
    case Null => "None"
    case Bool(b) => if b then "True" else "False"
    case Int(i) => IntToString(i)
    case Str(s) => s
    case Time(t) => IntToString(t)
    case Samples(xs) => "[" + RenderInts(xs) + "]"
  }
}
