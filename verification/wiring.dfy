/**
 * The consumer groups `createApp` starts, each reacting to one topic through
 * one handler that may send a notification, and the chains of derived events
 * this wiring can produce.
 */
module Wiring {
  import opened Wrappers
  import opened JsValues
  import opened Events
  import opened Bus
  import opened Services
  import opened Handlers

  datatype Group = UserHandler | OrderHandler | NotificationAnalytics

  function GroupId(g: Group): string {
    match g
    case UserHandler => "user-handler"
    case OrderHandler => "order-handler"
    case NotificationAnalytics => "notification-analytics"
  }

  function GroupTopics(g: Group): seq<Topic> {
    match g
    case UserHandler => [UserEvents]
    case OrderHandler => [OrderEvents]
    case NotificationAnalytics => [NotificationEvents]
  }

  /** The one group subscribed to topic `t`. */
  function SubscriberOf(t: Topic): (g: Group)
    ensures t in GroupTopics(g)
    ensures forall h :: t in GroupTopics(h) ==> h == g
  {
    match t
    case UserEvents => UserHandler
    case OrderEvents => OrderHandler
    case NotificationEvents => NotificationAnalytics
  }

  /** The `EventHandlers` method a group's handler calls. */
  function Dispatch(g: Group, ev: Value): Result<Option<Request>, JsError> {
    match g
    case UserHandler => HandleUserEvents(ev)
    case OrderHandler => HandleOrderEvents(ev)
    case NotificationAnalytics => HandleNotificationEvents(ev)
  }

  /**
   * A group's handler: dispatch, then `sendNotification` for the requested
   * notification (drawing its id and `sentAt` from `d`), which throws when
   * its log line cannot render the request's `userId`.
   */
  function React(g: Group, ev: Value, d: Draw): (r: Result<Option<Publication>, JsError>)
    ensures r.Err? <==>
              Dispatch(g, ev).Err? || (Dispatch(g, ev).value.Some? && !Renders(Dispatch(g, ev).value.value.userId))
    ensures r.Ok? && r.value.Some? ==>
              && Dispatch(g, ev).Ok? && Dispatch(g, ev).value.Some?
              && r.value.value == NotificationPublication(Dispatch(g, ev).value.value.userId,
                                                          Dispatch(g, ev).value.value.message,
                                                          Dispatch(g, ev).value.value.kind, d)
    ensures r.Ok? && r.value.Some? ==>
              && g != NotificationAnalytics
              && r.value.value.topic == NotificationEvents
              && r.value.value.eventType == NotificationSent
  {
    var req :- Dispatch(g, ev);
    match req
    case None => Ok(None)
    case Some(q) =>
      var p :- Notify(q.userId, q.message, q.kind, d);
      Ok(Some(p))
  }

  function Handler(g: Group): (Value, Draw) -> Result<Option<Publication>, JsError> {
    (ev, d) => React(g, ev, d)
  }

  /**
   * The events derived from one message on topic `t`: the subscribed group
   * handles it, and what it publishes is consumed in turn by the group
   * subscribed to that topic; one draw per handled message.
   */
  function Cascade(c: Codec, t: Topic, raw: Option<string>, draws: seq<Draw>): seq<Event>
    decreases |draws|
  {
    if draws == [] then []
    else
      match Process(c, raw, Handler(SubscriberOf(t)), draws[0], {})
      case Sent(t', e) => [e] + Cascade(c, t', Some(MakeMessage(e, c.stringify).value), draws[1..])
      case _ => []
  }

  /** Nothing consumed from `notification-events` leads to a further event. */
  lemma NotificationsEndChains(c: Codec, raw: Option<string>, draws: seq<Draw>)
    ensures Cascade(c, NotificationEvents, raw, draws) == []
  {
    if draws != [] {
      var o := Process(c, raw, Handler(NotificationAnalytics), draws[0], {});
      assert !o.Sent?;
    }
  }

  /** Every chain of derived events is at most one `NOTIFICATION_SENT` event long. */
  lemma ChainsEnd(c: Codec, t: Topic, raw: Option<string>, draws: seq<Draw>)
    ensures |Cascade(c, t, raw, draws)| <= 1
    ensures forall e :: e in Cascade(c, t, raw, draws) ==> e.eventType == NotificationSent
  {
    if draws != [] {
      var h := Handler(SubscriberOf(t));
      var o := Process(c, raw, h, draws[0], {});
      if o.Sent? {
        var ev := Decode(c, raw).value;
        assert h(ev, draws[0]) == React(SubscriberOf(t), ev, draws[0]);
        NotificationsEndChains(c, Some(MakeMessage(o.event, c.stringify).value), draws[1..]);
      }
    }
  }

  /** The user group answers a registration naming `name` with a welcome notification that names the user. */
  lemma WelcomeReaction(w: Value, name: string, d: Draw)
    requires EventTypeOf(w) == Some(UserRegistered)
    requires Lookup(Lookup(Some(w), "data"), "name") == Some(Str(name))
    requires Renders(Lookup(Some(w), "userId"))
    ensures React(UserHandler, w, d).Ok? && React(UserHandler, w, d).value.Some?
    ensures var p := React(UserHandler, w, d).value.value;
            && p.topic == NotificationEvents && p.eventType == NotificationSent
            && p.userId == Lookup(Some(w), "userId")
            && p.data.Obj? && "message" in p.data.fields && "type" in p.data.fields
            && p.data.fields["type"] == Str("welcome")
            && p.data.fields["message"].Str? && Contains(p.data.fields["message"].s, name)
  {
    WelcomeNamesUser(w, name);
  }

  /** The user group's consumer reads a published registration back as its JSON tree and reaches the handler. */
  lemma RegistrationArrives(c: Codec, e: Event)
    requires Faithful(c)
    requires SafeNumbers(e.userId) && SafeNumbers(e.data)
    requires e.eventType == UserRegistered
    ensures Decode(c, Some(MakeMessage(e, c.stringify).value)) == Some(ToWire(e))
    ensures Reaches(c, Some(MakeMessage(e, c.stringify).value))
    ensures EventTypeOf(ToWire(e)) == Some(UserRegistered)
    ensures Lookup(Some(ToWire(e)), "userId") == Some(e.userId)
    ensures Lookup(Some(ToWire(e)), "data") == Some(e.data)
  {
    WireSafe(e);
  }

  /** The user group's consumer answers a published registration by sending a welcome notification. */
  lemma RegistrationWelcomed(c: Codec, e: Event, name: string, d: Draw)
    requires Faithful(c)
    requires SafeNumbers(e.userId) && SafeNumbers(e.data) && Renderable(e.userId)
    requires e.eventType == UserRegistered && Lookup(Some(e.data), "name") == Some(Str(name))
    ensures var o := Process(c, Some(MakeMessage(e, c.stringify).value), Handler(UserHandler), d, {});
            && o.Sent? && o.topic == NotificationEvents
            && o.event.eventType == NotificationSent && o.event.userId == e.userId
            && o.event.data.Obj? && "message" in o.event.data.fields && "type" in o.event.data.fields
            && o.event.data.fields["type"] == Str("welcome")
            && o.event.data.fields["message"].Str? && Contains(o.event.data.fields["message"].s, name)
  {
    var w := ToWire(e);
    RegistrationArrives(c, e);
    WelcomeReaction(w, name, d);
    var h := Handler(UserHandler);
    assert h(w, d) == React(UserHandler, w, d);
  }

  /** A message whose handler publishes a notification starts a chain of exactly that notification. */
  lemma SentEndsChain(c: Codec, t: Topic, raw: Option<string>, draws: seq<Draw>)
    requires draws != []
    requires var o := Process(c, raw, Handler(SubscriberOf(t)), draws[0], {});
             o.Sent? && o.topic == NotificationEvents
    ensures Cascade(c, t, raw, draws) == [Process(c, raw, Handler(SubscriberOf(t)), draws[0], {}).event]
  {
    var o := Process(c, raw, Handler(SubscriberOf(t)), draws[0], {});
    NotificationsEndChains(c, Some(MakeMessage(o.event, c.stringify).value), draws[1..]);
  }

  /**
   * A registration published on `user-events` leads to exactly one
   * `NOTIFICATION_SENT` event, for the same user, whose message names the user.
   */
  lemma RegistrationIsAnnounced(c: Codec, e: Event, name: string, draws: seq<Draw>)
    requires Faithful(c)
    requires SafeNumbers(e.userId) && SafeNumbers(e.data) && Renderable(e.userId)
    requires e.eventType == UserRegistered && Lookup(Some(e.data), "name") == Some(Str(name))
    requires |draws| >= 1
    ensures |Cascade(c, UserEvents, Some(MakeMessage(e, c.stringify).value), draws)| == 1
    ensures var n := Cascade(c, UserEvents, Some(MakeMessage(e, c.stringify).value), draws)[0];
            && n.eventType == NotificationSent && n.userId == e.userId
            && n.data.Obj? && "message" in n.data.fields && "type" in n.data.fields
            && n.data.fields["type"] == Str("welcome")
            && n.data.fields["message"].Str? && Contains(n.data.fields["message"].s, name)
  {
    RegistrationWelcomed(c, e, name, draws[0]);
    SentEndsChain(c, UserEvents, Some(MakeMessage(e, c.stringify).value), draws);
  }
}
