/** The JavaScript values the bridge hands back to the web layer, and the
    mutable `JSObject` the workout query fills field by field. */
module Json {
  import opened Platform

  /** A value put into a `JSObject` or `JSArray`. Instants stand for their
      ISO-8601 `toString()`. */
  datatype JsValue =
    | JStr(str: string)
    | JNum(num: real)
    | JInt(whole: int)
    | JBool(truth: bool)
    | JTime(time: Instant)
    | JNull
    | JArr(items: seq<JsValue>)
    | JObj(fields: map<string, JsValue>)

  /** `JSObject`: `put` sets one key and leaves every other one alone. */
  class JsObject {
    var entries: map<string, JsValue>

    constructor ()
      ensures entries == map[]
    {
      entries := map[];
    }

    method Put(key: string, value: JsValue)
      modifies this
      ensures entries == old(entries)[key := value]
    {
      entries := entries[key := value];
    }
  }
}
