/** JSON objects as lists of fields, and the text codecs that the generated code borrows from libraries. */
module JsonObjects {
  import opened Domain

  /** A JSON value; `JsonOther` stands for booleans, arrays, objects and numbers that are no integers. */
  datatype Json = JsonNull | JsonString(text: string) | JsonNumber(value: int) | JsonOther

  datatype Field = Field(key: string, value: Json)

  /** The library functions that write and read UUIDs and instants. */
  datatype Texts = Texts(
    uuidText: Uuid -> string,
    parseUuid: string -> Option<Uuid>,
    timeText: Time -> string,
    parseTime: string -> Option<Time>)

  /** What is assumed of them: reading what was written gives it back. */
  ghost predicate Faithful(t: Texts) {
    && (forall u: Uuid :: t.parseUuid(t.uuidText(u)) == Some(u))
    && (forall at: Time :: t.parseTime(t.timeText(at)) == Some(at))
  }

  function DecodeUuid(t: Texts, v: Json): Option<Uuid> {
    match v
    case JsonString(text) => t.parseUuid(text)
    case _ => None
  }

  function DecodeTime(t: Texts, v: Json): Option<Time> {
    match v
    case JsonString(text) => t.parseTime(text)
    case _ => None
  }

  function DecodeInt64(v: Json): Option<Int64> {
    match v
    case JsonNumber(n) =>
      if -0x8000_0000_0000_0000 <= n < 0x8000_0000_0000_0000 then Some(n as Int64) else None
    case _ => None
  }

  function DecodeString(v: Json): Option<string> {
    match v
    case JsonString(text) => Some(text)
    case _ => None
  }
}
