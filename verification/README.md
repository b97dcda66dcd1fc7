# Kafka event bus of the Day 3-4 event-driven service

A Dafny model of the deterministic core of `Day-3-4/server.js`. That file is a
small Node.js service: business services publish user, order and
notification events onto three Kafka topics. Three consumer groups react to
them. The user and order groups send a notification, and the analytics group
only reads.

What is modelled:

- **Enumerations** (`Events`): the topics of `TOPICS` and the tags of
  `EVENT_TYPES`. A tag's name reads back to the tag, as a `===` switch sees it.
- **Event and message** (`Events`): the event record `publishEvent` builds and
  its JSON tree. The Kafka message carries it: its key is the event id, its
  value is the serialised event, and it has an `eventType` header and a
  `userId || 'anonymous'` header.
- **Event bus** (`Bus.EventBus`): a class holding the consumer registry, a
  `map` from group id to consumer plus the insertion order that a JS `Map`
  iterates in. The broker is modelled by two fields: the topics it holds and
  an append-only log per topic. Every client call the bus makes (connect,
  createTopics, send, subscribe, run, disconnect) is appended to `trace`.
  The broker's answers are an input: the set `refused` of calls it rejects.
  Whether a call is rejected depends only on the call's value, so an identical
  call made twice (the same `ConsumerConnect(g)`, say) gets the same answer
  both times.
  `Initialize`, `PublishEvent`, `CreateConsumer`, the `eachMessage` step
  (`EachMessage`), a consumer's run over a sequence of messages (`Consume`)
  and `Disconnect` are methods. Each one states the new registry, log and
  trace.
- **Services** (`Services`): the object literals the services build, with
  spread and "later key wins" stated field by field, and the publication each
  service makes. `sendNotification` renders `userId` in its log line before
  publishing, so an object with an own `toString` key makes it throw
  (`Services.Notify`).
- **Handlers** (`Handlers`): the three `switch` handlers as pure functions from
  a parsed event to an optional notification request. They include the
  `TypeError` a property read on `null`/`undefined` throws, and the one a
  template literal throws when it renders an object with an own `toString`
  key (`JsValues.Renderable`).
- **Wiring** (`Wiring`): which group consumes which topic with which handler,
  and the chains of derived events. A user or order event leads to at most
  one `NOTIFICATION_SENT` event, and nothing follows that one.

JavaScript values are `JsValues.Value`. `undefined` is not a value: an absent
property reads as `None`, and a key whose value would be `undefined` is left
out of the record. `JSON.stringify`/`JSON.parse` are the two functions of a
`Codec` held by the bus. The lemmas that follow a message from producer to
consumer assume `parse(stringify(v)) == Some(v)` for values whose numbers
are safe integers (`Faithful`). `uuidv4()` and
the clock are the fields of a `Draw`, given in the order the source calls
them.

Three behaviours of the code differ from what an event bus of this kind is
usually expected to do. The model follows the code:
- One might expect the message key to be a correlation key such as the user
  id, which keeps one user's events on one partition and in order. The code
  keys each message by the event's own fresh id, so a user's events spread
  over partitions.
- One might expect a message that is not JSON to be treated apart from a
  failing handler. The code catches a null value, a parse failure, a failing
  handler and a rejected publish inside a handler, and logs them all the same
  way. `Outcome` tells them apart, but none of them stops the loop.
- One might expect only "topic already exists" to be tolerated at start-up.
  The code swallows every `createTopics` error.

## Model

| member | source | states |
|---|---|---|
| `Events.TopicNamesDistinct` | Day-3-4/server.js:15-19 | the three topic names are pairwise distinct |
| `Events.TypeFromName` | Day-3-4/server.js:22-28 | a string names an event type exactly when it is that type's `EVENT_TYPES` string, in both directions |
| `Events.TypeTag` | Day-3-4/server.js:239-240 | a `switch (event.type)` matches a tag only when `event.type` is a string equal to that tag's name |
| `Events.WireRoundTrip` | Day-3-4/server.js:61-67 | the JSON tree of an event record reads back as exactly that record |
| `Events.MakeMessage` | Day-3-4/server.js:70-79 | the key is the event's own id, the value is the serialisation of the event, the `eventType` header is the type's name, and the `userId` header is the userId when truthy, else `'anonymous'` |
| `Events.MessageCarriesEvent` | Day-3-4/server.js:74 | if parsing inverts serialising on values whose numbers are safe integers, a consumer decoding the message value recovers exactly the published event, provided its `userId` and `data` hold only safe integers |
| `JsValues.Display` | Day-3-4/server.js:243 | rendering `${v}` gives `"undefined"` for `undefined` and a string's own text, and throws exactly when an object it reaches, directly or inside arrays, has an own `toString` key |
| `JsValues.Text` | Day-3-4/server.js:243 | rendering a value throws exactly when it is, or an array element at any depth is, an object with an own `toString` key; a string renders as itself |
| `JsValues.GetProp` | Day-3-4/server.js:243 | reading a property throws a `TypeError` exactly on `null`/`undefined`, and otherwise yields the object's field or `undefined` |
| `Bus.UntilRejected` | Day-3-4/server.js:112-118 | awaiting calls one by one makes a prefix of them: all of them when none is rejected, otherwise up to and including the first rejected one |
| `Bus.UntilRejectedAll` | Day-3-4/server.js:112-118 | when the broker rejects none of the calls, all of them are made |
| `Bus.UntilRejectedStops` | Day-3-4/server.js:112-118 | the calls stop right after the first rejected one |
| `Bus.EventBus.AwaitEach` | Day-3-4/server.js:112-118 | awaiting calls in turn records exactly `UntilRejected` of them; it succeeds exactly when none is rejected, and otherwise throws naming the first rejected call, which is the last call made |
| `Bus.TopicRequests` | Day-3-4/server.js:45-51 | every requested topic has 3 partitions and replication factor 1, and no topic is requested twice |
| `Bus.EveryTopicRequested` | Day-3-4/server.js:46 | every topic of `TOPICS` is in the request |
| `Bus.Provision` | Day-3-4/server.js:45-51 | after a successful `createTopics`, existing topics keep their configuration and every requested topic exists |
| `Bus.ProvisionExisting` | Day-3-4/server.js:45-51 | requesting topics that all exist changes nothing |
| `Bus.ProvisionIdempotent` | Day-3-4/server.js:45-51 | provisioning twice with the same request gives the same topics as provisioning once |
| `Bus.EventBus.CreateTopicsOnce` | Day-3-4/server.js:44-55 | one `createTopics` call is made; the topics are provisioned when the broker accepts it and left as they were when it rejects it, and the rejection is not thrown |
| `Bus.SendsOfAppend` | Day-3-4/server.js:96-104 | the broker calls of two outcome reports, one after the other, are the calls of their concatenation |
| `Bus.OutcomesAt` | Day-3-4/server.js:95-105 | in a run of messages, each message's outcome is the outcome of that message alone with its own fresh values, whatever failed before it |
| `Bus.OutcomesAppend` | Day-3-4/server.js:95-105 | one run over `a + b` gives the outcomes of a run over `a` followed by those of a run over `b` whose fresh values continue where `a` stopped |
| `Bus.ConsumeInTurn` | Day-3-4/server.js:95-105 | consuming `a` and then `b` in two runs, the second continuing the fresh values, makes the same broker calls as one run over `a + b` |
| `Bus.Decode` | Day-3-4/server.js:98 | a message value yields an event exactly when it is not null and parses |
| `Bus.Process` | Day-3-4/server.js:96-104 | a message is malformed exactly when its value is null or does not parse; it fails exactly when it parses but is null, its `type` cannot be rendered in the log line, or the handler throws; it is handled without a send exactly when the handler returns without publishing; it leads to a send exactly when it reaches the handler and the handler asks to publish; that send carries the handler's publication with the message's fresh values and succeeds unless the broker rejects it |
| `Bus.DisconnectCoversRegistry` | Day-3-4/server.js:112-118 | the disconnect plan closes the producer first and then every registered consumer exactly once |
| `Bus.EventBus.constructor` | Day-3-4/server.js:31-34 | a new bus has an empty consumer registry and has made no calls |
| `Bus.EventBus.Initialize` | Day-3-4/server.js:36-58 | a rejected producer connect ends it after one call, a rejected admin connect after two, and otherwise all four calls are made, even when `createTopics` is rejected; it throws only for a rejected connect or admin disconnect, and then throws the rejection of the call that failed, the last one made; the topics are provisioned only when `createTopics` is reached and accepted; registry and log are untouched |
| `Bus.EventBus.PublishEvent` | Day-3-4/server.js:60-88 | the returned event has the given id, timestamp, type and data, and a `null` userId when it was omitted; exactly one send is made with no retry; on success one message is appended to that topic, and on rejection the error is rethrown and no event is returned or logged |
| `Bus.EventBus.CreateConsumer` | Day-3-4/server.js:90-110 | connect, subscribe and run are awaited in turn, and the first rejection is thrown; on success the consumer is stored under its group id, replacing an earlier entry that keeps its place in the iteration order; on a rejection the registry is unchanged |
| `Bus.EventBus.EachMessage` | Day-3-4/server.js:96-104 | one message, possibly with a null value, is processed as `Process` says: every error is caught, and at most one send is appended to the trace and the log |
| `Bus.EventBus.Consume` | Day-3-4/server.js:95-105 | every message, a null value included, has the outcome `Process` gives it; the trace and each topic's log grow by exactly the sends of the outcomes, in order |
| `Bus.EventBus.Disconnect` | Day-3-4/server.js:112-118 | on a valid registry, the producer is disconnected first, then each registered consumer in insertion order, stopping at the first rejection, which is thrown naming that first rejected call; it succeeds exactly when no call of the plan is rejected, and then every registered consumer has been disconnected; the registry is left as it was |
| `Services.UserRecord` | Day-3-4/server.js:129-133 | `createdAt` always comes from the clock; `id` is the caller's if given, else the fresh one; every other caller key is kept |
| `Services.RegisterUserPublication` | Day-3-4/server.js:136-141 | a user-registered event on `user-events` whose payload is the user record `registerUser` returns, correlated by the record's own (possibly caller-supplied) `id` |
| `Services.ProfileUpdate` | Day-3-4/server.js:148 | the record holds exactly `userId`, `updates` and `updatedAt` |
| `Services.UpdateProfilePublication` | Day-3-4/server.js:150-155 | a profile-updated event on `user-events` whose payload is the update record `updateProfile` returns, correlated by the given userId |
| `Services.OrderRecord` | Day-3-4/server.js:167-173 | `status` is always `'pending'` and `createdAt` always fresh; `id` and `userId` from `orderData` override the generated ones; other keys come from `orderData` |
| `Services.CreateOrderPublication` | Day-3-4/server.js:175-180 | an order-created event on `order-events` whose payload is the pending order `createOrder` returns, correlated by the `userId` argument even when `orderData` carries another one |
| `Services.CompletedOrder` | Day-3-4/server.js:186-191 | the record has the given order id, `status: 'completed'` and the fresh `completedAt` |
| `Services.CompleteOrderPublication` | Day-3-4/server.js:193-198 | an order-completed event on `order-events` whose payload is the completed order `completeOrder` returns, with `status: 'completed'` |
| `Services.NotificationRecord` | Day-3-4/server.js:210-216 | the record carries the message, the notification type and the userId |
| `Services.NotificationPublication` | Day-3-4/server.js:221-226 | a `NOTIFICATION_SENT` event on `notification-events` whose payload is the notification record, carrying the message and type |
| `Services.Notify` | Day-3-4/server.js:209-226 | the log line renders `userId`, so `sendNotification` throws before publishing exactly when `userId` cannot be rendered; otherwise it publishes the notification |
| `Services.UserService.RegisterUser` | Day-3-4/server.js:127-144 | publishes the registration once and returns the user record unless the send was rejected, in which case that send's rejection is rethrown |
| `Services.UserService.UpdateProfile` | Day-3-4/server.js:146-158 | publishes the profile update once and returns it unless the send was rejected, in which case that send's rejection is rethrown |
| `Services.OrderService.CreateOrder` | Day-3-4/server.js:166-183 | publishes the pending order once and returns it unless the send was rejected, in which case that send's rejection is rethrown |
| `Services.OrderService.CompleteOrder` | Day-3-4/server.js:185-201 | publishes the completed order once and returns it unless the send was rejected, in which case that send's rejection is rethrown |
| `Services.NotificationService.SendNotification` | Day-3-4/server.js:209-229 | an unrenderable `userId` throws from the log line with no call made and the trace and log unchanged; otherwise the notification is published once and returned unless the send was rejected, in which case that send's rejection is rethrown |
| `Handlers.HandleUserEvents` | Day-3-4/server.js:238-256 | `USER_REGISTERED` yields one `'welcome'` request to `event.userId` whose text renders `event.data.name`, and throws exactly when `event.data` is null/undefined or the name cannot be rendered; `USER_PROFILE_UPDATED` yields one `'info'` request; any other type yields none; a null event throws |
| `Handlers.HandleOrderEvents` | Day-3-4/server.js:258-276 | `ORDER_CREATED` and `ORDER_COMPLETED` each yield one `'order'` request to `event.userId` with their own text rendering `event.data.id`, and throw exactly when `event.data` is null/undefined or the id cannot be rendered; other types yield none |
| `Handlers.HandleNotificationEvents` | Day-3-4/server.js:278-282 | never yields a request; it throws exactly for a null event, or for a `NOTIFICATION_SENT` event without data or whose `data.type` or `userId` cannot be rendered in the analytics line |
| `Handlers.WelcomeNamesUser` | Day-3-4/server.js:240-245 | a registration whose `data.name` is a string yields a welcome notification whose text contains that name |
| `Handlers.OrderNoticeNamesOrder` | Day-3-4/server.js:260-273 | an order notification's text contains the order's `data.id` when it is a string |
| `Wiring.SubscriberOf` | Day-3-4/server.js:301-308 | each topic is consumed by exactly one of the three groups |
| `Wiring.React` | Day-3-4/server.js:219-282 | a group's handler throws exactly when its `EventHandlers` method throws or the requested notification's userId cannot be rendered by `sendNotification`; it publishes only the requested `NOTIFICATION_SENT` notification on `notification-events`, and the analytics group publishes nothing |
| `Wiring.NotificationsEndChains` | Day-3-4/server.js:278-282 | nothing consumed from `notification-events` leads to another event |
| `Wiring.ChainsEnd` | Day-3-4/server.js:238-282 | every chain of derived events holds at most one event, and that event is a `NOTIFICATION_SENT` |
| `Wiring.WelcomeReaction` | Day-3-4/server.js:219-245 | the user group answers a registration whose `data.name` is a string, and whose userId renders, with one welcome `NOTIFICATION_SENT` publication for that userId naming the user |
| `Wiring.RegistrationWelcomed` | Day-3-4/server.js:96-104 | the user group's consumer turns a published registration with a string name, a renderable userId and safe-integer numbers into a sent welcome notification for the same userId |
| `Wiring.RegistrationIsAnnounced` | Day-3-4/server.js:240-245 | a published registration with a string name, a renderable userId and safe-integer numbers leads to exactly one `NOTIFICATION_SENT` event, for the same userId, of type `'welcome'`, whose message contains the user's name |

## Left out

- The kafkajs client itself is not modelled: partition choice from the key, offsets and commits, redelivery, consumer-group balancing and retries. Per-key ordering therefore cannot be stated. Within one topic, the log keeps messages in send order.
- Which messages reach a consumer is an input to `Consume`. The model does not derive them from the log, from partitions or from offsets.
- The asynchronous concurrency of the three consumer loops, and of publishes from concurrent HTTP requests, is not modelled. One consumer's messages are processed in sequence.
- The Express app, its routes and status codes, `app.listen`, the `SIGINT` handler and `process.exit` are I/O plumbing and are left out. So is the order in which `createApp` starts the three consumers (lines 286-309). Only its group-to-topic-to-handler table is modelled, as `Wiring`.
- `console.log`/`console.error` output is left out. The text of the `Event received` line, of the analytics line and of the `sendNotification` line is not modelled, but rendering their values is, because rendering can throw: `event.type`, `event.data.type`, `event.userId` and the notification's `userId`.
- `uuidv4()` and the clock are inputs (`Draw`). Uniqueness of ids is not modelled.
- JSON text is abstract (`Codec`). Key order in objects, `undefined`-valued keys dropped by `JSON.stringify`, and non-integer numbers are not modelled.
- `JsValues.Value`: numbers are unbounded integers, not IEEE doubles. `JSON.parse` rounds integers beyond `2^53 - 1` (`9007199254740993` reads as `9007199254740992`). So `Faithful` and the lemmas built on it (`Events.MessageCarriesEvent`, `Wiring.RegistrationIsAnnounced`) speak only of safe integers.
- `JsValues.Text`: renders every integer with all its digits. JavaScript switches to exponent form from `10^21` on (`${1e21}` is `"1e+21"`), so the welcome and order texts are exact only for numbers below that bound, which includes every safe integer.
- A request body that is a JSON array would be spread into index keys. The payload builders take the caller's data as an object.
- Properties of primitives and arrays (such as `length`) read as `undefined`. The handlers read only `type`, `userId`, `data`, `name` and `id`.
- `publishEvent` takes its topic and event type from the two enumerations, as every caller in the source does.
- The default `type = 'info'` of `sendNotification` is not modelled, because every caller passes a type.
- A rejected `createTopics` is modelled as creating no topic. What a partly failed request leaves on the broker is not visible in the source.
- `Bus.EventBus.Initialize`: does not model the admin client's own state. A failed producer or admin connect simply ends the call.
- `Bus.EventBus.Disconnect`: awaits its whole plan (producer, then each consumer) through one loop. The source awaits the producer and then loops over the consumers; the calls made and the error thrown are the same.
- A consumer replaced in the registry by a second `createConsumer` with the same group id is no longer reachable from it. `disconnect` closes only the one currently stored under that id.
