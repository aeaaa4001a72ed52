/**
 * The values the log console passes around: log records as the search
 * endpoint and the live-tail socket deliver them, filters, and the
 * suggestion buckets of the aggregation endpoint.
 */
module LogModel {
  import opened Wrappers
  import Decimal

  /** A JSON scalar as it can appear as a metadata value. */
  datatype Value = Str(s: string) | Int(i: int) | Bool(b: bool) | Null

  /** JavaScript's `String(value)` on such a scalar. */
  function JsString(v: Value): (r: string)
    ensures v.Str? ==> r == v.s
    ensures v.Int? ==> r == Decimal.IntToString(v.i)
  {
    match v
    case Str(s) => s
    case Int(i) => Decimal.IntToString(i)
    case Bool(b) => if b then "true" else "false"
    case Null => "null"
  }

  /** A log record; `metadata` lists the object's entries in their enumeration order. */
  datatype Log = Log(level: string, message: string, timestamp: string, metadata: seq<(string, Value)>)

  /** An active filter chip: a field name and the text it must equal. */
  datatype Filter = Filter(key: string, value: string)

  /** One aggregation bucket: a field value and how many logs carry it. */
  datatype Bucket = Bucket(key: string, docCount: int)

  /** The suggestion payload; either bucket list may be absent. */
  datatype Suggestions = Suggestions(commonLevels: Option<seq<Bucket>>, commonUserIds: Option<seq<Bucket>>)

  /** The empty object `{}`. */
  const NoSuggestions := Suggestions(None, None)

  /** No filter occurs twice in the list. */
  predicate NoDuplicates(filters: seq<Filter>) {
    forall i, j :: 0 <= i < j < |filters| ==> filters[i] != filters[j]
  }
}
