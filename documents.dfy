/** Stored documents. A document is a map from field names to values; the
    decoders read fields with Swift's `data[key] as? T`, which yields nothing
    when the key is missing or holds a value of another type. Timestamps are
    whole numbers. */
module Documents {
  import opened Wrappers

  datatype Value =
    | Str(s: string)
    | Int(i: int)
    | Ts(t: int)
    | Bool(b: bool)
    | StrList(items: seq<string>)

  type Doc = map<string, Value>

  /** One document of a query result or listener snapshot: its id and its data. */
  datatype DocSnapshot = DocSnapshot(id: string, data: Doc)

  /** The outcome of a `getDocuments()` call: it threw, or it returned the
      documents in the order the query asked for. */
  datatype QueryResult = QueryFailed(reason: string) | Documents(docs: seq<DocSnapshot>)

  /** `data[key] as? String` */
  function GetStr(d: Doc, key: string): Option<string> {
    if key in d && d[key].Str? then Some(d[key].s) else None
  }

  /** `data[key] as? Int` */
  function GetInt(d: Doc, key: string): Option<int> {
    if key in d && d[key].Int? then Some(d[key].i) else None
  }

  /** `data[key] as? Timestamp` */
  function GetTs(d: Doc, key: string): Option<int> {
    if key in d && d[key].Ts? then Some(d[key].t) else None
  }

  /** `data[key] as? Bool` */
  function GetBool(d: Doc, key: string): Option<bool> {
    if key in d && d[key].Bool? then Some(d[key].b) else None
  }

  /** `data[key] as? [String]` */
  function GetStrList(d: Doc, key: string): Option<seq<string>> {
    if key in d && d[key].StrList? then Some(d[key].items) else None
  }
}
