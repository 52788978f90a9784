/** Crawled product records as both the uploader and the publisher read
    them: JSON values, Python truthiness and `dict.get`. */
module Records {
  /** A value found in a crawled record: the JSON shapes the crawler
      writes. */
  datatype Value = Str(s: string) | Int(n: int) | Num(x: real) | List(items: seq<string>) | Null

  /** Python truthiness of a record value. */
  predicate Truthy(v: Value) {
    match v
    case Str(s) => s != ""
    case Int(n) => n != 0
    case Num(x) => x != 0.0
    case List(items) => items != []
    case Null => false
  }

  /** One element of the input list: a dictionary, or anything else. */
  datatype RawItem = Record(fields: map<string, Value>) | NotARecord

  /** Python `d.get(key, default)`. */
  function Get(fields: map<string, Value>, key: string, default: Value): Value {
    if key in fields then fields[key] else default
  }
}
