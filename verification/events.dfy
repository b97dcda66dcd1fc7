/**
 * The fixed enumerations of the application (`TOPICS`, `EVENT_TYPES`), the
 * event record `publishEvent` builds, its JSON form, and the Kafka message
 * that carries it.
 */
module Events {
  import opened Wrappers
  import opened JsValues

  /** The three topics of `TOPICS`. */
  datatype Topic = UserEvents | OrderEvents | NotificationEvents

  function TopicName(t: Topic): string {
    match t
    case UserEvents => "user-events"
    case OrderEvents => "order-events"
    case NotificationEvents => "notification-events"
  }

  /** Distinct topics have distinct names. */
  lemma TopicNamesDistinct(t: Topic, u: Topic)
    ensures TopicName(t) == TopicName(u) ==> t == u
  {
  }

  /** One entry of an admin `createTopics` request. */
  datatype TopicSpec = TopicSpec(topic: Topic, numPartitions: nat, replicationFactor: nat)

  /** The five tags of `EVENT_TYPES`. */
  datatype EventType =
    | UserRegistered
    | UserProfileUpdated
    | OrderCreated
    | OrderCompleted
    | NotificationSent

  function TypeName(t: EventType): string {
    match t
    case UserRegistered => "USER_REGISTERED"
    case UserProfileUpdated => "USER_PROFILE_UPDATED"
    case OrderCreated => "ORDER_CREATED"
    case OrderCompleted => "ORDER_COMPLETED"
    case NotificationSent => "NOTIFICATION_SENT"
  }

  /** The tag a `===` comparison against the `EVENT_TYPES` strings recognises, if any. */
  function TypeFromName(s: string): (r: Option<EventType>)
    ensures r.Some? ==> TypeName(r.value) == s
    ensures forall t :: TypeName(t) == s ==> r == Some(t)
  {
    if s == "USER_REGISTERED" then Some(UserRegistered)
    else if s == "USER_PROFILE_UPDATED" then Some(UserProfileUpdated)
    else if s == "ORDER_CREATED" then Some(OrderCreated)
    else if s == "ORDER_COMPLETED" then Some(OrderCompleted)
    else if s == "NOTIFICATION_SENT" then Some(NotificationSent)
    else None
  }

  /** The tag of a property value read as `event.type`; non-strings match no `case`. */
  function TypeTag(v: Option<Value>): (r: Option<EventType>)
    ensures r.Some? <==> exists t :: v == Some(Str(TypeName(t)))
    ensures r.Some? ==> v == Some(Str(TypeName(r.value)))
  {
    match v
    case Some(Str(s)) => TypeFromName(s)
    case _ => None
  }

  /** The event record: `id`, `type`, `timestamp`, `userId`, `data`. */
  datatype Event = Event(id: string, eventType: EventType, timestamp: string, userId: Value, data: Value)

  /** The values `uuidv4()` and the clock hand out to one service call, in the order it draws them. */
  datatype Draw = Draw(entityId: string, entityTime: string, eventId: string, eventTime: string)

  /** The arguments of one `publishEvent(topic, eventType, data, userId)` call. */
  datatype Publication = Publication(topic: Topic, eventType: EventType, data: Value, userId: Option<Value>)

  /** The record `publishEvent` builds; an omitted (`undefined`) userId defaults to `null`. */
  function MakeEvent(id: string, eventType: EventType, timestamp: string, userId: Option<Value>, data: Value): Event {
    Event(id, eventType, timestamp, if userId.Some? then userId.value else Null, data)
  }

  function EventOf(p: Publication, d: Draw): Event {
    MakeEvent(d.eventId, p.eventType, d.eventTime, p.userId, p.data)
  }

  /** The JSON object tree of an event. */
  function ToWire(e: Event): Value {
    Obj(map[
      "id" := Str(e.id),
      "type" := Str(TypeName(e.eventType)),
      "timestamp" := Str(e.timestamp),
      "userId" := e.userId,
      "data" := e.data])
  }

  /** Reads an event record back from a JSON tree, when it has the shape of one. */
  function FromWire(v: Value): (r: Option<Event>)
    ensures r.Some? ==> v.Obj? && {"id", "type", "timestamp", "userId", "data"} <= v.fields.Keys
    ensures r.Some? ==> v.fields["userId"] == r.value.userId && v.fields["data"] == r.value.data
  {
    if v.Obj? && {"id", "type", "timestamp", "userId", "data"} <= v.fields.Keys
       && v.fields["id"].Str? && v.fields["timestamp"].Str?
       && TypeTag(Some(v.fields["type"])).Some?
    then Some(Event(v.fields["id"].s, TypeTag(Some(v.fields["type"])).value,
                    v.fields["timestamp"].s, v.fields["userId"], v.fields["data"]))
    else None
  }

  lemma WireRoundTrip(e: Event)
    ensures FromWire(ToWire(e)) == Some(e)
  {
    var w := ToWire(e);
    assert TypeTag(Some(w.fields["type"])) == Some(e.eventType);
  }

  /** The headers attached to an outgoing message. */
  datatype Headers = Headers(eventType: string, userId: Value)

  datatype Message = Message(key: string, value: string, headers: Headers)

  /** `JSON.stringify` and `JSON.parse` (the latter fails on text that is not JSON). */
  datatype Codec = Codec(stringify: Value -> string, parse: string -> Option<Value>)

  /**
   * Parsing what was stringified gives the value back, for values whose
   * numbers are safe integers (larger ones come back rounded).
   */
  ghost predicate Faithful(c: Codec) {
    forall v :: SafeNumbers(v) ==> c.parse(c.stringify(v)) == Some(v)
  }

  /** The message `publishEvent` hands to `producer.send` for event `e`. */
  function MakeMessage(e: Event, stringify: Value -> string): (m: Message)
    ensures m.key == e.id
    ensures m.value == stringify(ToWire(e))
    ensures m.headers.eventType == TypeName(e.eventType)
    ensures Truthy(e.userId) ==> m.headers.userId == e.userId
    ensures !Truthy(e.userId) ==> m.headers.userId == Str("anonymous")
  {
    Message(e.id, stringify(ToWire(e)),
            Headers(TypeName(e.eventType), if Truthy(e.userId) then e.userId else Str("anonymous")))
  }

  /** What a consumer reads back from a message: the event, if its value parses to one. */
  function DecodeMessage(c: Codec, m: Message): Option<Event> {
    match c.parse(m.value)
    case None => None
    case Some(v) => FromWire(v)
  }

  /** The JSON tree of an event holds only the numbers of its `userId` and `data`. */
  lemma WireSafe(e: Event)
    requires SafeNumbers(e.userId) && SafeNumbers(e.data)
    ensures SafeNumbers(ToWire(e))
  {
    var fields := ToWire(e).fields;
    forall k | k in fields
      ensures SafeNumbers(fields[k])
    {
      assert fields[k] in {Str(e.id), Str(TypeName(e.eventType)), Str(e.timestamp), e.userId, e.data};
    }
  }

  /** A consumer reading a published message recovers exactly the published event. */
  lemma MessageCarriesEvent(c: Codec, e: Event)
    requires Faithful(c)
    requires SafeNumbers(e.userId) && SafeNumbers(e.data)
    ensures DecodeMessage(c, MakeMessage(e, c.stringify)) == Some(e)
  {
    WireSafe(e);
    assert c.parse(c.stringify(ToWire(e))) == Some(ToWire(e));
    WireRoundTrip(e);
  }
}
