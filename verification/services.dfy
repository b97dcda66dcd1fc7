/**
 * The business services: each builds a record with an object literal, where
 * a later key wins over an earlier one and `...x` copies the keys of `x` at
 * its position, and publishes it on a fixed topic with a fixed event type.
 */
module Services {
  import opened Wrappers
  import opened JsValues
  import opened Events
  import opened Bus

  /** Why a service call threw: rendering its log line, or the publish. */
  datatype ServiceError = RenderFailed(thrown: JsError) | PublishFailed(rejection: BusError)

  /** `{ id, ...userData, createdAt }`. */
  function UserRecord(id: string, userData: map<string, Value>, createdAt: string): (u: map<string, Value>)
    ensures u.Keys == userData.Keys + {"id", "createdAt"}
    ensures u["createdAt"] == Str(createdAt)
    ensures u["id"] == if "id" in userData then userData["id"] else Str(id)
    ensures forall k :: k in userData && k != "createdAt" ==> u[k] == userData[k]
  {
    map["id" := Str(id)] + userData + map["createdAt" := Str(createdAt)]
  }

  /** `registerUser`: the new user on `user-events`, correlated by the record's own `id`. */
  function RegisterUserPublication(userData: map<string, Value>, d: Draw): (p: Publication)
    ensures p.topic == UserEvents && p.eventType == UserRegistered
    ensures p.data == Obj(UserRecord(d.entityId, userData, d.entityTime))
    ensures p.data.Obj? && "id" in p.data.fields && p.userId == Some(p.data.fields["id"])
  {
    var user := UserRecord(d.entityId, userData, d.entityTime);
    Publication(UserEvents, UserRegistered, Obj(user), Some(user["id"]))
  }

  /** `{ userId, updates, updatedAt }`. */
  function ProfileUpdate(userId: Value, updates: Value, updatedAt: string): (u: map<string, Value>)
    ensures u.Keys == {"userId", "updates", "updatedAt"}
    ensures u["userId"] == userId && u["updates"] == updates && u["updatedAt"] == Str(updatedAt)
  {
    map["userId" := userId, "updates" := updates, "updatedAt" := Str(updatedAt)]
  }

  function UpdateProfilePublication(userId: Value, updates: Value, d: Draw): (p: Publication)
    ensures p.topic == UserEvents && p.eventType == UserProfileUpdated && p.userId == Some(userId)
    ensures p.data == Obj(ProfileUpdate(userId, updates, d.entityTime))
  {
    Publication(UserEvents, UserProfileUpdated, Obj(ProfileUpdate(userId, updates, d.entityTime)), Some(userId))
  }

  /** `{ id, userId, ...orderData, status: 'pending', createdAt }`; an undefined `userId` is no key. */
  function OrderRecord(id: string, userId: Option<Value>, orderData: map<string, Value>, createdAt: string)
    : (o: map<string, Value>)
    ensures o.Keys == orderData.Keys + {"id", "status", "createdAt"} + (if userId.Some? then {"userId"} else {})
    ensures o["status"] == Str("pending") && o["createdAt"] == Str(createdAt)
    ensures o["id"] == if "id" in orderData then orderData["id"] else Str(id)
    ensures "userId" in orderData ==> o["userId"] == orderData["userId"]
    ensures "userId" !in orderData && userId.Some? ==> o["userId"] == userId.value
    ensures forall k :: k in orderData && k != "status" && k != "createdAt" ==> o[k] == orderData[k]
  {
    var head := map["id" := Str(id)] + (if userId.Some? then map["userId" := userId.value] else map[]);
    head + orderData + map["status" := Str("pending"), "createdAt" := Str(createdAt)]
  }

  /** `createOrder`: correlated by the `userId` argument, whatever key `orderData` carries. */
  function CreateOrderPublication(userId: Option<Value>, orderData: map<string, Value>, d: Draw): (p: Publication)
    ensures p.topic == OrderEvents && p.eventType == OrderCreated && p.userId == userId
    ensures p.data == Obj(OrderRecord(d.entityId, userId, orderData, d.entityTime))
    ensures p.data.Obj? && "status" in p.data.fields && p.data.fields["status"] == Str("pending")
  {
    Publication(OrderEvents, OrderCreated, Obj(OrderRecord(d.entityId, userId, orderData, d.entityTime)), userId)
  }

  /** `{ id: orderId, userId, status: 'completed', completedAt }`. */
  function CompletedOrder(orderId: Value, userId: Option<Value>, completedAt: string): (o: map<string, Value>)
    ensures o.Keys == {"id", "status", "completedAt"} + (if userId.Some? then {"userId"} else {})
    ensures o["id"] == orderId && o["status"] == Str("completed") && o["completedAt"] == Str(completedAt)
    ensures userId.Some? ==> o["userId"] == userId.value
  {
    map["id" := orderId, "status" := Str("completed"), "completedAt" := Str(completedAt)]
      + (if userId.Some? then map["userId" := userId.value] else map[])
  }

  function CompleteOrderPublication(orderId: Value, userId: Option<Value>, d: Draw): (p: Publication)
    ensures p.topic == OrderEvents && p.eventType == OrderCompleted && p.userId == userId
    ensures p.data == Obj(CompletedOrder(orderId, userId, d.entityTime))
    ensures p.data.Obj? && "status" in p.data.fields && p.data.fields["status"] == Str("completed")
  {
    Publication(OrderEvents, OrderCompleted, Obj(CompletedOrder(orderId, userId, d.entityTime)), userId)
  }

  /** `{ id, userId, message, type, sentAt }`. */
  function NotificationRecord(id: string, userId: Option<Value>, message: string, kind: string, sentAt: string)
    : (n: map<string, Value>)
    ensures n.Keys == {"id", "message", "type", "sentAt"} + (if userId.Some? then {"userId"} else {})
    ensures n["message"] == Str(message) && n["type"] == Str(kind)
    ensures userId.Some? ==> n["userId"] == userId.value
  {
    map["id" := Str(id), "message" := Str(message), "type" := Str(kind), "sentAt" := Str(sentAt)]
      + (if userId.Some? then map["userId" := userId.value] else map[])
  }

  /** `sendNotification`: the notification on `notification-events`. */
  function NotificationPublication(userId: Option<Value>, message: string, kind: string, d: Draw): (p: Publication)
    ensures p.topic == NotificationEvents && p.eventType == NotificationSent && p.userId == userId
    ensures p.data == Obj(NotificationRecord(d.entityId, userId, message, kind, d.entityTime))
    ensures p.data.Obj? && "message" in p.data.fields && "type" in p.data.fields
    ensures p.data.fields["message"] == Str(message) && p.data.fields["type"] == Str(kind)
  {
    Publication(NotificationEvents, NotificationSent,
                Obj(NotificationRecord(d.entityId, userId, message, kind, d.entityTime)), userId)
  }

  /**
   * `sendNotification` up to its `publishEvent`: the log line renders `type`,
   * `userId` and `message`, so an unrenderable `userId` throws before
   * anything is published.
   */
  function Notify(userId: Option<Value>, message: string, kind: string, d: Draw): (r: Result<Publication, JsError>)
    ensures r.Err? <==> !Renders(userId)
    ensures r.Err? ==> r.error == NoPrimitive
    ensures r.Ok? ==> r.value == NotificationPublication(userId, message, kind, d)
  {
    var shown :- Display(userId);
    Ok(NotificationPublication(userId, message, kind, d))
  }

  class UserService {
    const bus: EventBus

    constructor (bus: EventBus)
      ensures this.bus == bus
    {
      this.bus := bus;
    }

    /** Publishes the new user and returns it; a rejected send is rethrown. */
    method RegisterUser(userData: map<string, Value>, d: Draw, refused: set<Call>)
      returns (r: Result<map<string, Value>, BusError>)
      modifies bus`trace, bus`log
      ensures var p := RegisterUserPublication(userData, d);
              && bus.Published(p, d, refused) && (r.Ok? <==> Send(p.topic, bus.MessageOf(p, d)) !in refused)
              && (r.Err? ==> r.error == Rejected(Send(p.topic, bus.MessageOf(p, d))))
      ensures r.Ok? ==> r.value == UserRecord(d.entityId, userData, d.entityTime)
    {
      var p := RegisterUserPublication(userData, d);
      var sent := bus.PublishEvent(p.topic, p.eventType, p.data, p.userId, d.eventId, d.eventTime, refused);
      if sent.Err? {
        return Err(sent.error);
      }
      r := Ok(p.data.fields);
    }

    method UpdateProfile(userId: Value, updates: Value, d: Draw, refused: set<Call>)
      returns (r: Result<map<string, Value>, BusError>)
      modifies bus`trace, bus`log
      ensures var p := UpdateProfilePublication(userId, updates, d);
              && bus.Published(p, d, refused) && (r.Ok? <==> Send(p.topic, bus.MessageOf(p, d)) !in refused)
              && (r.Err? ==> r.error == Rejected(Send(p.topic, bus.MessageOf(p, d))))
      ensures r.Ok? ==> r.value == ProfileUpdate(userId, updates, d.entityTime)
    {
      var p := UpdateProfilePublication(userId, updates, d);
      var sent := bus.PublishEvent(p.topic, p.eventType, p.data, p.userId, d.eventId, d.eventTime, refused);
      if sent.Err? {
        return Err(sent.error);
      }
      r := Ok(p.data.fields);
    }
  }

  class OrderService {
    const bus: EventBus

    constructor (bus: EventBus)
      ensures this.bus == bus
    {
      this.bus := bus;
    }

    method CreateOrder(userId: Option<Value>, orderData: map<string, Value>, d: Draw, refused: set<Call>)
      returns (r: Result<map<string, Value>, BusError>)
      modifies bus`trace, bus`log
      ensures var p := CreateOrderPublication(userId, orderData, d);
              && bus.Published(p, d, refused) && (r.Ok? <==> Send(p.topic, bus.MessageOf(p, d)) !in refused)
              && (r.Err? ==> r.error == Rejected(Send(p.topic, bus.MessageOf(p, d))))
      ensures r.Ok? ==> r.value == OrderRecord(d.entityId, userId, orderData, d.entityTime)
    {
      var p := CreateOrderPublication(userId, orderData, d);
      var sent := bus.PublishEvent(p.topic, p.eventType, p.data, p.userId, d.eventId, d.eventTime, refused);
      if sent.Err? {
        return Err(sent.error);
      }
      r := Ok(p.data.fields);
    }

    method CompleteOrder(orderId: Value, userId: Option<Value>, d: Draw, refused: set<Call>)
      returns (r: Result<map<string, Value>, BusError>)
      modifies bus`trace, bus`log
      ensures var p := CompleteOrderPublication(orderId, userId, d);
              && bus.Published(p, d, refused) && (r.Ok? <==> Send(p.topic, bus.MessageOf(p, d)) !in refused)
              && (r.Err? ==> r.error == Rejected(Send(p.topic, bus.MessageOf(p, d))))
      ensures r.Ok? ==> r.value == CompletedOrder(orderId, userId, d.entityTime)
    {
      var p := CompleteOrderPublication(orderId, userId, d);
      var sent := bus.PublishEvent(p.topic, p.eventType, p.data, p.userId, d.eventId, d.eventTime, refused);
      if sent.Err? {
        return Err(sent.error);
      }
      r := Ok(p.data.fields);
    }
  }

  class NotificationService {
    const bus: EventBus

    constructor (bus: EventBus)
      ensures this.bus == bus
    {
      this.bus := bus;
    }

    /**
     * Logs, then publishes the notification and returns it; an unrenderable
     * `userId` throws before any call, and a rejected send is rethrown.
     */
    method SendNotification(userId: Option<Value>, message: string, kind: string, d: Draw, refused: set<Call>)
      returns (r: Result<map<string, Value>, ServiceError>)
      modifies bus`trace, bus`log
      ensures !Renders(userId) ==> r == Err(RenderFailed(NoPrimitive)) && unchanged(bus`trace, bus`log)
      ensures Renders(userId) ==>
                var p := NotificationPublication(userId, message, kind, d);
                && bus.Published(p, d, refused) && (r.Ok? <==> Send(p.topic, bus.MessageOf(p, d)) !in refused)
                && (r.Err? ==> r.error == PublishFailed(Rejected(Send(p.topic, bus.MessageOf(p, d)))))
      ensures r.Ok? ==> r.value == NotificationRecord(d.entityId, userId, message, kind, d.entityTime)
    {
      var n := Notify(userId, message, kind, d);
      if n.Err? {
        return Err(RenderFailed(n.error));
      }
      var p := n.value;
      var sent := bus.PublishEvent(p.topic, p.eventType, p.data, p.userId, d.eventId, d.eventTime, refused);
      if sent.Err? {
        return Err(PublishFailed(sent.error));
      }
      r := Ok(p.data.fields);
    }
  }
}
