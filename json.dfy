/** The JSON objects the web search service returns, as Python dictionaries
    whose values are held as the text an f-string prints for them. */
module Json {
  import opened Wrappers

  type Object = map<string, string>

  /** `obj.get(key)` */
  function Get(obj: Object, key: string): Option<string> {
    if key in obj then Some(obj[key]) else None
  }

  /** What an f-string prints for a value that may be `None`. */
  function Show(o: Option<string>): string {
    o.GetOr("None")
  }
}
