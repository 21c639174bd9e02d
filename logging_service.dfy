/**
 * The reader of the platform's log service: each fetched entry is normalised into a flat record
 * (time, severity, message, resource type, id), and each fetch answers an empty list on any
 * failure. The log service's query and reply are outside the model: the reply is a parameter, and
 * so are the clock, the random fallback ids and `JSON.stringify`.
 */
module LoggingService {
  import opened Wrappers
  import opened Js

  /**
   * An entry's metadata, each field as the string it turns into (`?.toString()`), `None` when the
   * field is `null` or absent.
   */
  datatype Metadata = Metadata(timestamp: Option<string>, severity: Option<string>,
                               resourceType: Option<string>, insertId: Option<string>)

  /** A fetched entry: its payload, a `message` property, and its metadata, which may be missing. */
  datatype Entry = Entry(data: JsValue, message: JsValue, metadata: Option<Metadata>)

  /** The normalised entry; `message` is whatever value the payload yields. */
  datatype LogEntry = LogEntry(timestamp: string, severity: string, message: JsValue, resourceType: string, id: string)

  const UnknownMessage: string := "Unknown message"
  const DefaultSeverity: string := "DEFAULT"
  const UnknownResource: string := "unknown"

  /** `v || fallback` on an optional string. */
  function TextOr(v: Option<string>, fallback: string): (r: string)
    ensures r == fallback || (v.Some? && r == v.value && r != "")
    ensures v.Some? && v.value != "" ==> r == v.value
  {
    if v.Some? && v.value != "" then v.value else fallback
  }

  /** `typeof v === 'object'` for a truthy value: arrays and objects. */
  predicate IsObject(v: JsValue) {
    v.Arr? || v.Obj?
  }

  /**
   * The message: a string payload verbatim (even the empty one); for an object payload its
   * `message`, else its `textPayload`, else the payload serialised; otherwise the entry's own
   * `message`, else "Unknown message".
   */
  function MessageOf(e: Entry, stringify: JsValue -> string): JsValue {
    if e.data.Str? then e.data
    else if IsObject(e.data) then Or(Field(e.data, "message"), Or(Field(e.data, "textPayload"), Str(stringify(e.data))))
    else Or(e.message, Str(UnknownMessage))
  }

  /**
   * Which source each message comes from, with every source's precedence; and, when the
   * serialiser never yields the empty string, a message is falsy exactly when the payload is the
   * empty string.
   */
  lemma MessageSources(e: Entry, stringify: JsValue -> string)
    ensures var m := MessageOf(e, stringify);
            && (e.data.Str? ==> m == e.data)
            && (IsObject(e.data) && Truthy(Field(e.data, "message")) ==> m == Field(e.data, "message"))
            && (IsObject(e.data) && !Truthy(Field(e.data, "message")) && Truthy(Field(e.data, "textPayload")) ==>
                  m == Field(e.data, "textPayload"))
            && (IsObject(e.data) && !Truthy(Field(e.data, "message")) && !Truthy(Field(e.data, "textPayload")) ==>
                  m == Str(stringify(e.data)))
            && (!e.data.Str? && !IsObject(e.data) ==> m == if Truthy(e.message) then e.message else Str(UnknownMessage))
    ensures (forall v :: stringify(v) != "") ==> (!Truthy(MessageOf(e, stringify)) <==> e.data == Str(""))
  {
  }

  /**
   * `transformEntry`: `None` when the entry has no metadata (reading its fields throws). The time
   * falls back to `now`, the severity to "DEFAULT", the resource type to "unknown", and the id to
   * `randomId`.
   */
  function Transform(e: Entry, stringify: JsValue -> string, now: string, randomId: string): (r: Option<LogEntry>)
    ensures r.Some? <==> e.metadata.Some?
    ensures r.Some? ==>
      var m := e.metadata.value;
      && r.value.message == MessageOf(e, stringify)
      && r.value.timestamp == TextOr(m.timestamp, now)
      && r.value.severity == TextOr(m.severity, DefaultSeverity)
      && r.value.resourceType == TextOr(m.resourceType, UnknownResource)
      && r.value.id == TextOr(m.insertId, randomId)
  {
    match e.metadata
    case None => None
    case Some(m) =>
      Some(LogEntry(TextOr(m.timestamp, now), TextOr(m.severity, DefaultSeverity), MessageOf(e, stringify),
                    TextOr(m.resourceType, UnknownResource), TextOr(m.insertId, randomId)))
  }

  /** `entries.map(transformEntry)`, which throws as soon as one entry does. */
  function TransformAll(entries: seq<Entry>, stringify: JsValue -> string, now: string, random: nat -> string)
    : Option<seq<LogEntry>>
  {
    if forall i | 0 <= i < |entries| :: entries[i].metadata.Some?
    then Some(seq(|entries|, i requires 0 <= i < |entries| => Transform(entries[i], stringify, now, random(i)).value))
    else None
  }

  /**
   * `getRecentErrorLogs`: the entries the service answers (at most `limit`, newest first), each
   * normalised; a failed fetch, or an entry that cannot be normalised, gives the empty list.
   */
  function RecentErrorLogs(reply: Result<seq<Entry>, string>, stringify: JsValue -> string, now: string,
                           random: nat -> string): seq<LogEntry> {
    if reply.Err? then []
    else TransformAll(reply.value, stringify, now, random).GetOr([])
  }

  /** What `getSystemLogs` resolves to. */
  datatype SystemLogs = SystemLogs(logs: seq<LogEntry>, nextPageToken: Option<string>)

  /**
   * `getSystemLogs`: the normalised entries and the reply's next-page token (an empty token reads
   * as none); on any failure no logs and no token.
   */
  function SystemLogsOf(reply: Result<(seq<Entry>, Option<string>), string>, stringify: JsValue -> string,
                        now: string, random: nat -> string): SystemLogs {
    if reply.Err? then SystemLogs([], None)
    else
      match TransformAll(reply.value.0, stringify, now, random)
      case None => SystemLogs([], None)
      case Some(logs) =>
        SystemLogs(logs, if reply.value.1.Some? && reply.value.1.value != "" then reply.value.1 else None)
  }

  /**
   * Both fetchers answer one normalised entry per fetched entry, in the fetched order, when every
   * entry has its metadata, and nothing at all otherwise or on a failed fetch.
   */
  lemma {:induction false} FetchesPreserveOrder(reply: Result<seq<Entry>, string>, token: Option<string>,
                                                stringify: JsValue -> string, now: string, random: nat -> string)
    ensures var recent := RecentErrorLogs(reply, stringify, now, random);
            var system := SystemLogsOf(if reply.Err? then Err(reply.error) else Ok((reply.value, token)), stringify, now, random);
            && system.logs == recent
            && (reply.Err? ==> recent == [] && system.nextPageToken.None?)
            && (reply.Ok? && (exists i | 0 <= i < |reply.value| :: reply.value[i].metadata.None?) ==>
                  recent == [] && system.nextPageToken.None?)
            && (reply.Ok? && (forall i | 0 <= i < |reply.value| :: reply.value[i].metadata.Some?) ==>
                  && |recent| == |reply.value|
                  && forall i | 0 <= i < |recent| ::
                       Transform(reply.value[i], stringify, now, random(i)) == Some(recent[i]))
  {
  }
}
