/**
 * `EventHandlers`: switches on `event.type` that turn an event into at most
 * one notification request. An event type a switch does not list is ignored.
 */
module Handlers {
  import opened Wrappers
  import opened JsValues
  import opened Events

  /** The arguments of one `sendNotification(userId, message, type)` call. */
  datatype Request = Request(userId: Option<Value>, message: string, kind: string)

  /** The tag `event.type` matches in a `switch`, if any. */
  function EventTypeOf(ev: Value): Option<EventType> {
    TypeTag(Lookup(Some(ev), "type"))
  }

  /** The welcome text around the rendered `event.data.name`. */
  function WelcomeText(name: string): string {
    "Welcome " + name + "! Your account has been created successfully."
  }

  const ProfileUpdatedText := "Your profile has been updated successfully."

  /** The order-created text around the rendered `event.data.id`. */
  function OrderCreatedText(id: string): string {
    "Order #" + id + " has been created and is being processed."
  }

  /** The order-completed text around the rendered `event.data.id`. */
  function OrderCompletedText(id: string): string {
    "Order #" + id + " has been completed successfully!"
  }

  /** `handleUserEvents`. */
  function HandleUserEvents(ev: Value): (r: Result<Option<Request>, JsError>)
    ensures ev == Null ==> r.Err?
    ensures r.Ok? && r.value.Some? ==> r.value.value.userId == Lookup(Some(ev), "userId")
    ensures ev != Null && EventTypeOf(ev) != Some(UserRegistered) && EventTypeOf(ev) != Some(UserProfileUpdated)
            ==> r == Ok(None)
    ensures EventTypeOf(ev) == Some(UserProfileUpdated)
            ==> r == Ok(Some(Request(Lookup(Some(ev), "userId"), ProfileUpdatedText, "info")))
    ensures EventTypeOf(ev) == Some(UserRegistered) ==>
              var data := Lookup(Some(ev), "data");
              var name := Lookup(data, "name");
              && (r.Err? <==> Nullish(data) || !Renders(name))
              && (r.Ok? ==> r.value == Some(Request(Lookup(Some(ev), "userId"),
                                                    WelcomeText(Display(name).value), "welcome")))
  {
    var t :- GetProp(Some(ev), "type");
    // `ev` is not null from here on, so reading `ev.userId` and `ev.data` cannot throw
    match TypeTag(t)
    case Some(UserRegistered) =>
      var userId := Lookup(Some(ev), "userId");
      var data := Lookup(Some(ev), "data");
      var name :- GetProp(data, "name");
      var shown :- Display(name);
      Ok(Some(Request(userId, WelcomeText(shown), "welcome")))
    case Some(UserProfileUpdated) =>
      var userId := Lookup(Some(ev), "userId");
      Ok(Some(Request(userId, ProfileUpdatedText, "info")))
    case _ => Ok(None)
  }

  /** `handleOrderEvents`. */
  function HandleOrderEvents(ev: Value): (r: Result<Option<Request>, JsError>)
    ensures ev == Null ==> r.Err?
    ensures r.Ok? && r.value.Some? ==>
              r.value.value.userId == Lookup(Some(ev), "userId") && r.value.value.kind == "order"
    ensures ev != Null && EventTypeOf(ev) != Some(OrderCreated) && EventTypeOf(ev) != Some(OrderCompleted)
            ==> r == Ok(None)
    ensures EventTypeOf(ev) == Some(OrderCreated) || EventTypeOf(ev) == Some(OrderCompleted) ==>
              var data := Lookup(Some(ev), "data");
              var id := Lookup(data, "id");
              && (r.Err? <==> Nullish(data) || !Renders(id))
              && (r.Ok? ==> r.value.Some?)
              && (r.Ok? ==> r.value.value.message
                            == if EventTypeOf(ev) == Some(OrderCreated) then OrderCreatedText(Display(id).value)
                               else OrderCompletedText(Display(id).value))
  {
    var t :- GetProp(Some(ev), "type");
    match TypeTag(t)
    case Some(OrderCreated) =>
      var userId := Lookup(Some(ev), "userId");
      var data := Lookup(Some(ev), "data");
      var id :- GetProp(data, "id");
      var shown :- Display(id);
      Ok(Some(Request(userId, OrderCreatedText(shown), "order")))
    case Some(OrderCompleted) =>
      var userId := Lookup(Some(ev), "userId");
      var data := Lookup(Some(ev), "data");
      var id :- GetProp(data, "id");
      var shown :- Display(id);
      Ok(Some(Request(userId, OrderCompletedText(shown), "order")))
    case _ => Ok(None)
  }

  /**
   * `handleNotificationEvents`: renders `event.data.type` and `event.userId`
   * into the analytics log line and never asks for a notification.
   */
  function HandleNotificationEvents(ev: Value): (r: Result<Option<Request>, JsError>)
    ensures r.Ok? ==> r.value == None
    ensures r.Err? <==>
              || ev == Null
              || (&& EventTypeOf(ev) == Some(NotificationSent)
                  && (|| Nullish(Lookup(Some(ev), "data"))
                      || !Renders(Lookup(Lookup(Some(ev), "data"), "type"))
                      || !Renders(Lookup(Some(ev), "userId"))))
  {
    var t :- GetProp(Some(ev), "type");
    if TypeTag(t) == Some(NotificationSent) then
      var data := Lookup(Some(ev), "data");
      var kind :- GetProp(data, "type");
      var kindText :- Display(kind);
      var userText :- Display(Lookup(Some(ev), "userId"));
      Ok(None)
    else
      Ok(None)
  }

  /** A registration whose `data.name` is the string `name` yields a welcome notification naming the user. */
  lemma WelcomeNamesUser(ev: Value, name: string)
    requires EventTypeOf(ev) == Some(UserRegistered)
    requires Lookup(Lookup(Some(ev), "data"), "name") == Some(Str(name))
    ensures HandleUserEvents(ev).Ok? && HandleUserEvents(ev).value.Some?
    ensures var req := HandleUserEvents(ev).value.value;
            req.kind == "welcome" && req.userId == Lookup(Some(ev), "userId") && Contains(req.message, name)
  {
    var text := WelcomeText(name);
    assert text[8..8 + |name|] == name;
    assert OccursAt(text, name, 8);
  }

  /** An order notification names the order's `data.id` when it is a string. */
  lemma OrderNoticeNamesOrder(ev: Value, id: string)
    requires EventTypeOf(ev) == Some(OrderCreated) || EventTypeOf(ev) == Some(OrderCompleted)
    requires Lookup(Lookup(Some(ev), "data"), "id") == Some(Str(id))
    ensures HandleOrderEvents(ev).Ok? && HandleOrderEvents(ev).value.Some?
    ensures var req := HandleOrderEvents(ev).value.value;
            req.kind == "order" && req.userId == Lookup(Some(ev), "userId") && Contains(req.message, id)
  {
    var req := HandleOrderEvents(ev).value.value;
    assert req.message[7..7 + |id|] == id;
    assert OccursAt(req.message, id, 7);
  }
}
