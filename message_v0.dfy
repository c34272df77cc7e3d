/** Schema v0 of the message envelope: a message type, a content that is text, an
    event or an object, and metadata carrying the schema version and a UTC+8
    timestamp. The clock is a parameter (`utcNow`). */
module MessageV0 {
  import opened Wrappers
  import opened Json

  datatype MessageType = System | User | Event

  /** A `DateTime<FixedOffset>`: an instant and the offset it is shown in. */
  datatype Timestamp = Timestamp(utcSeconds: int, offsetSeconds: int)

  /** The UTC+8 offset every default timestamp carries. */
  const ChinaOffsetSeconds: int := 8 * 3600

  datatype MessageMeta = MessageMeta(
    schemaVersion: string,
    timestamp: Timestamp,
    additional: map<string, Json>)

  function DefaultSchemaVersion(): string { "v0" }

  function ChinaTime(utcNow: int): (t: Timestamp)
    ensures t.offsetSeconds == 8 * 3600 && t.utcSeconds == utcNow
  {
    Timestamp(utcNow, ChinaOffsetSeconds)
  }

  /** `MessageMeta::default()`, also what `MessageMeta::new()` returns. */
  function DefaultMeta(utcNow: int): (m: MessageMeta)
    ensures m.schemaVersion == "v0"
    ensures m.timestamp.offsetSeconds == 8 * 3600 && m.timestamp.utcSeconds == utcNow
    ensures m.additional == map[]
  {
    MessageMeta(DefaultSchemaVersion(), ChinaTime(utcNow), map[])
  }

  /** `MessageMeta::with_china_time()`. */
  function MetaWithChinaTime(utcNow: int): (m: MessageMeta)
    ensures m == DefaultMeta(utcNow)
  {
    MessageMeta(DefaultSchemaVersion(), ChinaTime(utcNow), map[])
  }

  datatype EventStatus = StatusOk | StatusError

  datatype EventError = EventError(
    code: string,
    message: string,
    details: Option<map<string, Json>>,
    additional: map<string, Json>)

  datatype EventContent = EventContent(
    source: string,
    status: EventStatus,
    data: Option<map<string, Json>>,
    error: Option<EventError>,
    additional: map<string, Json>)

  /** The consistency rule an event must meet: an ok event carries data and an
      error event carries an error. */
  predicate StatusConsistent(e: EventContent) {
    && (e.status == StatusOk ==> e.data.Some?)
    && (e.status == StatusError ==> e.error.Some?)
  }

  /** `EventContent::validate`. */
  function Validate(e: EventContent): (r: Outcome<string>)
    ensures r.Pass? <==> StatusConsistent(e)
    ensures e.status == StatusOk && e.data.None? ==>
      r == Fail("Status is 'ok' but 'data' is missing")
    ensures e.status == StatusError && e.error.None? ==>
      r == Fail("Status is 'error' but 'error' is missing")
  {
    match e.status
    case StatusOk =>
      if e.data.None? then Fail("Status is 'ok' but 'data' is missing") else Pass
    case StatusError =>
      if e.error.None? then Fail("Status is 'error' but 'error' is missing") else Pass
  }

  /** `EventContent::ok`: a successful event always validates. */
  function OkEvent(source: string, data: map<string, Json>): (e: EventContent)
    ensures Validate(e) == Pass
    ensures e.status == StatusOk && e.data == Some(data) && e.error.None?
    ensures e.source == source && e.additional == map[]
  {
    EventContent(source, StatusOk, Some(data), None, map[])
  }

  /** `EventContent::error`: a failed event always validates. */
  function ErrorEvent(source: string, error: EventError): (e: EventContent)
    ensures Validate(e) == Pass
    ensures e.status == StatusError && e.error == Some(error) && e.data.None?
    ensures e.source == source && e.additional == map[]
  {
    EventContent(source, StatusError, None, Some(error), map[])
  }

  /** Validation accepts an ok event that carries both data and an error. */
  lemma OkWithBothValidates(e: EventContent)
    requires e.status == StatusOk && e.data.Some? && e.error.Some?
    ensures Validate(e) == Pass
  {
  }

  datatype MessageContent =
    | Text(text: string)
    | EventBody(event: EventContent)
    | Object(fields: map<string, Json>)

  datatype Envelope = Envelope(
    messageType: MessageType,
    content: MessageContent,
    meta: MessageMeta,
    additional: map<string, Json>)

  /** Each message type goes with its own content variant. */
  predicate TypeMatchesContent(e: Envelope) {
    match e.messageType
    case User => e.content.Text?
    case Event => e.content.EventBody?
    case System => e.content.Object?
  }

  /** `Envelope::user`. */
  function UserEnvelope(text: string, utcNow: int): (e: Envelope)
    ensures TypeMatchesContent(e) && e.messageType == User
    ensures e.content == Text(text) && e.meta == DefaultMeta(utcNow) && e.additional == map[]
  {
    Envelope(User, Text(text), DefaultMeta(utcNow), map[])
  }

  /** `Envelope::event`. */
  function EventEnvelope(content: EventContent, utcNow: int): (e: Envelope)
    ensures TypeMatchesContent(e) && e.messageType == Event
    ensures e.content == EventBody(content) && e.meta == DefaultMeta(utcNow) && e.additional == map[]
  {
    Envelope(Event, EventBody(content), DefaultMeta(utcNow), map[])
  }

  /** `Envelope::system`. */
  function SystemEnvelope(fields: map<string, Json>, utcNow: int): (e: Envelope)
    ensures TypeMatchesContent(e) && e.messageType == System
    ensures e.content == Object(fields) && e.meta == DefaultMeta(utcNow) && e.additional == map[]
  {
    Envelope(System, Object(fields), DefaultMeta(utcNow), map[])
  }

  /** `Envelope::with_meta`: replaces the metadata and nothing else. */
  function WithMeta(e: Envelope, meta: MessageMeta): (r: Envelope)
    ensures r.meta == meta
    ensures r.messageType == e.messageType && r.content == e.content && r.additional == e.additional
    ensures TypeMatchesContent(r) <==> TypeMatchesContent(e)
  {
    e.(meta := meta)
  }

  /** Every envelope built by a constructor and then given new metadata still
      declares schema v0 when the new metadata is a default one. */
  lemma DefaultMetaDeclaresV0(text: string, t0: int, t1: int)
    ensures WithMeta(UserEnvelope(text, t0), DefaultMeta(t1)).meta.schemaVersion == "v0"
  {
  }
}
