/**
 * `EventBus`: one producer, a registry of consumers keyed by group id, topic
 * provisioning at start-up, publishing, the per-message step of a consumer
 * and shutdown. The broker is modelled by the bus's `topics` and per-topic
 * append-only `log`; every call the kafkajs client makes is recorded in
 * `trace`, and which of those calls the broker rejects is an input
 * (`refused`).
 */
module Bus {
  import opened Wrappers
  import opened JsValues
  import opened Events

  /** A call the bus makes on the kafkajs producer, admin client or a consumer. */
  datatype Call =
    | ProducerConnect
    | AdminConnect
    | CreateTopics(requests: seq<TopicSpec>)
    | AdminDisconnect
    | Send(topic: Topic, message: Message)
    | ConsumerConnect(groupId: string)
    | Subscribe(groupId: string, topics: seq<Topic>)
    | Run(groupId: string)
    | ProducerDisconnect
    | ConsumerDisconnect(groupId: string)

  /** The rejection of a client call, rethrown to the caller. */
  datatype BusError = Rejected(call: Call)

  datatype Consumer = Consumer(groupId: string, topics: seq<Topic>)

  /** What became of one consumed message; every failure is caught and logged. */
  datatype Outcome =
    | Malformed                            // the value was null, or `JSON.parse` threw
    | Failed(error: JsError)               // reading or rendering `event.type`, or the handler, threw
    | Handled                              // the handler returned without publishing
    | Sent(topic: Topic, event: Event)     // the handler published `event`
    | SendFailed(topic: Topic, event: Event)  // the handler's publish was rejected

  /**
   * The calls of `calls` made when each is awaited in turn: all of them, up
   * to and including the first one the broker rejects.
   */
  function UntilRejected(calls: seq<Call>, refused: set<Call>): (made: seq<Call>)
    ensures made <= calls
    ensures forall i :: 0 <= i < |made| - 1 ==> made[i] !in refused
    ensures made == calls || (made != [] && made[|made| - 1] in refused)
  {
    if calls == [] then []
    else if calls[0] in refused then [calls[0]]
    else [calls[0]] + UntilRejected(calls[1..], refused)
  }

  /** `calls[k]` is the first call of `calls` the broker rejects. */
  predicate FirstRejected(calls: seq<Call>, refused: set<Call>, k: int) {
    0 <= k < |calls| && calls[k] in refused && forall j :: 0 <= j < k ==> calls[j] !in refused
  }

  /** When nothing is rejected, every call is made. */
  lemma {:induction false} UntilRejectedAll(calls: seq<Call>, refused: set<Call>)
    requires forall c :: c in calls ==> c !in refused
    ensures UntilRejected(calls, refused) == calls
  {
    if calls != [] {
      UntilRejectedAll(calls[1..], refused);
    }
  }

  /** The calls stop right after the first rejected one. */
  lemma {:induction false} UntilRejectedStops(calls: seq<Call>, refused: set<Call>, k: nat)
    requires k < |calls| && calls[k] in refused
    requires forall j :: 0 <= j < k ==> calls[j] !in refused
    ensures UntilRejected(calls, refused) == calls[..k + 1]
  {
    if k > 0 {
      UntilRejectedStops(calls[1..], refused, k - 1);
      assert calls[..k + 1] == [calls[0]] + calls[1..][..k];
    }
  }

  /** The `createTopics` request of `initialize`: the three topics, 3 partitions, replication factor 1. */
  function TopicRequests(): (r: seq<TopicSpec>)
    ensures forall i :: 0 <= i < |r| ==> r[i].numPartitions == 3 && r[i].replicationFactor == 1
    ensures forall i, j :: 0 <= i < j < |r| ==> r[i].topic != r[j].topic
  {
    [TopicSpec(UserEvents, 3, 1), TopicSpec(OrderEvents, 3, 1), TopicSpec(NotificationEvents, 3, 1)]
  }

  /** Every topic of `TOPICS` is requested. */
  lemma EveryTopicRequested(t: Topic)
    ensures TopicSpec(t, 3, 1) in TopicRequests()
  {
    var r := TopicRequests();
    match t
    case UserEvents => assert r[0] == TopicSpec(t, 3, 1);
    case OrderEvents => assert r[1] == TopicSpec(t, 3, 1);
    case NotificationEvents => assert r[2] == TopicSpec(t, 3, 1);
  }

  /**
   * The broker's topics after a successful `createTopics`: a requested topic
   * that does not exist is created as requested; an existing one is kept.
   */
  function Provision(existing: map<Topic, TopicSpec>, requests: seq<TopicSpec>): (r: map<Topic, TopicSpec>)
    ensures forall t :: t in existing ==> t in r && r[t] == existing[t]
    ensures forall i :: 0 <= i < |requests| ==> requests[i].topic in r
    ensures forall t :: t in r ==> t in existing || r[t] in requests
    decreases |requests|
  {
    if requests == [] then existing
    else
      var s := requests[0];
      Provision(if s.topic in existing then existing else existing[s.topic := s], requests[1..])
  }

  /** Provisioning topics that all exist already changes nothing. */
  lemma {:induction false} ProvisionExisting(existing: map<Topic, TopicSpec>, requests: seq<TopicSpec>)
    requires forall i :: 0 <= i < |requests| ==> requests[i].topic in existing
    ensures Provision(existing, requests) == existing
    decreases |requests|
  {
    if requests != [] {
      ProvisionExisting(existing, requests[1..]);
    }
  }

  /** Provisioning twice with the same request is the same as provisioning once. */
  lemma ProvisionIdempotent(existing: map<Topic, TopicSpec>, requests: seq<TopicSpec>)
    ensures Provision(Provision(existing, requests), requests) == Provision(existing, requests)
  {
    ProvisionExisting(Provision(existing, requests), requests);
  }

  /** The broker call made for one message outcome. */
  function CallOf(o: Outcome, stringify: Value -> string): seq<Call> {
    match o
    case Sent(t, e) => [Send(t, MakeMessage(e, stringify))]
    case SendFailed(t, e) => [Send(t, MakeMessage(e, stringify))]
    case _ => []
  }

  /** The broker calls made while consuming messages with outcomes `report`, in order. */
  function SendsOf(report: seq<Outcome>, stringify: Value -> string): seq<Call>
    decreases |report|
  {
    if report == [] then []
    else SendsOf(report[..|report| - 1], stringify) + CallOf(report[|report| - 1], stringify)
  }

  /** The message one outcome appended to topic `t`. */
  function AppendedBy(t: Topic, o: Outcome, stringify: Value -> string): seq<Message> {
    if o.Sent? && o.topic == t then [MakeMessage(o.event, stringify)] else []
  }

  /** The messages appended to topic `t` while consuming messages with outcomes `report`, in order. */
  function AppendedTo(t: Topic, report: seq<Outcome>, stringify: Value -> string): seq<Message>
    decreases |report|
  {
    if report == [] then []
    else AppendedTo(t, report[..|report| - 1], stringify) + AppendedBy(t, report[|report| - 1], stringify)
  }

  /** One more outcome adds its calls and its message at the end. */
  lemma Snoc(report: seq<Outcome>, o: Outcome, stringify: Value -> string)
    ensures SendsOf(report + [o], stringify) == SendsOf(report, stringify) + CallOf(o, stringify)
    ensures forall t :: AppendedTo(t, report + [o], stringify) == AppendedTo(t, report, stringify) + AppendedBy(t, o, stringify)
  {
    assert (report + [o])[..|report|] == report;
  }

  /** The calls of two outcome reports one after the other are the calls of their concatenation. */
  lemma {:induction false} SendsOfAppend(a: seq<Outcome>, b: seq<Outcome>, stringify: Value -> string)
    ensures SendsOf(a + b, stringify) == SendsOf(a, stringify) + SendsOf(b, stringify)
    decreases |b|
  {
    if b != [] {
      var b' := b[..|b| - 1];
      assert (a + b)[..|a + b| - 1] == a + b';
      assert (a + b)[|a + b| - 1] == b[|b| - 1];
      SendsOfAppend(a, b', stringify);
    } else {
      assert a + b == a;
    }
  }

  /**
   * `JSON.parse(message.value.toString())`: the parsed event, or `None` when
   * the message value is null (a tombstone) or is not JSON text.
   */
  function Decode(c: Codec, raw: Option<string>): (v: Option<Value>)
    ensures v.Some? ==> raw.Some? && c.parse(raw.value) == v
    ensures raw.Some? && c.parse(raw.value).Some? ==> v.Some?
  {
    if raw.None? then None else c.parse(raw.value)
  }

  /** The parsed message reaches the handler: it is not null and the log line renders its `type`. */
  predicate Reaches(c: Codec, raw: Option<string>) {
    Decode(c, raw).Some? && Decode(c, raw).value != Null && Renders(Lookup(Decode(c, raw), "type"))
  }

  /**
   * The `eachMessage` step of a consumer, as a function of the raw message
   * value, the handler, the fresh values and the broker's answers.
   */
  function Process(c: Codec, raw: Option<string>, handler: (Value, Draw) -> Result<Option<Publication>, JsError>,
                   d: Draw, refused: set<Call>): (o: Outcome)
    ensures o == Malformed <==> Decode(c, raw).None?
    ensures o.Failed? <==>
              Decode(c, raw).Some? && (!Reaches(c, raw) || handler(Decode(c, raw).value, d).Err?)
    ensures o.Handled? <==> Reaches(c, raw) && handler(Decode(c, raw).value, d) == Ok(None)
    ensures (o.Sent? || o.SendFailed?) <==>
              Reaches(c, raw) && handler(Decode(c, raw).value, d).Ok? && handler(Decode(c, raw).value, d).value.Some?
    ensures o.Sent? || o.SendFailed? ==>
              var p := handler(Decode(c, raw).value, d).value.value;
              o.topic == p.topic && o.event == EventOf(p, d)
              && (o.Sent? <==> Send(p.topic, MakeMessage(o.event, c.stringify)) !in refused)
  {
    match Decode(c, raw)
    case None => Malformed
    case Some(ev) =>
      match GetProp(Some(ev), "type")
      case Err(e) => Failed(e)
      case Ok(t) =>
        match Display(t)
        case Err(e) => Failed(e)
        case Ok(_) =>
          match handler(ev, d)
          case Err(e) => Failed(e)
          case Ok(None) => Handled
          case Ok(Some(p)) =>
            var e := EventOf(p, d);
            if Send(p.topic, MakeMessage(e, c.stringify)) in refused then SendFailed(p.topic, e) else Sent(p.topic, e)
  }

  /** The messages `log` holds for topic `t`; a topic never written to holds none. */
  function LogOf(log: map<Topic, seq<Message>>, t: Topic): seq<Message> {
    if t in log then log[t] else []
  }

  /** The outcomes of a consumer's messages in order, message `k` with the fresh values `draws(k)`. */
  function Outcomes(c: Codec, msgs: seq<Option<string>>, handler: (Value, Draw) -> Result<Option<Publication>, JsError>,
                    draws: nat -> Draw, refused: set<Call>): seq<Outcome>
    decreases |msgs|
  {
    if msgs == [] then []
    else Outcomes(c, msgs[..|msgs| - 1], handler, draws, refused)
         + [Process(c, msgs[|msgs| - 1], handler, draws(|msgs| - 1), refused)]
  }

  /** Appending one more element to a trace that already extends `base` by `made`. */
  lemma AppendOne<T>(base: seq<T>, made: seq<T>, x: T)
    ensures base + made + [x] == base + (made + [x])
  {
    AppendAssoc(base, made, [x]);
  }

  lemma AppendAssoc<T>(a: seq<T>, b: seq<T>, c: seq<T>)
    ensures (a + b) + c == a + (b + c)
  {
  }

  /** Each message's outcome depends on that message and its fresh values alone. */
  lemma {:induction false} OutcomesAt(c: Codec, msgs: seq<Option<string>>,
                                      handler: (Value, Draw) -> Result<Option<Publication>, JsError>,
                                      draws: nat -> Draw, refused: set<Call>)
    ensures |Outcomes(c, msgs, handler, draws, refused)| == |msgs|
    ensures forall k :: 0 <= k < |msgs| ==>
              Outcomes(c, msgs, handler, draws, refused)[k] == Process(c, msgs[k], handler, draws(k), refused)
    decreases |msgs|
  {
    if msgs != [] {
      var front := msgs[..|msgs| - 1];
      OutcomesAt(c, front, handler, draws, refused);
      forall k | 0 <= k < |front|
        ensures msgs[k] == front[k]
      {
      }
    }
  }

  /**
   * Consuming `a + b` in one run gives the outcomes of `a`, then those of `b`
   * with fresh values `later` that continue where `a` stopped.
   */
  lemma {:induction false} OutcomesAppend(c: Codec, a: seq<Option<string>>, b: seq<Option<string>>,
                                          handler: (Value, Draw) -> Result<Option<Publication>, JsError>,
                                          draws: nat -> Draw, later: nat -> Draw, refused: set<Call>)
    requires forall k: nat :: later(k) == draws(|a| + k)
    ensures Outcomes(c, a + b, handler, draws, refused)
            == Outcomes(c, a, handler, draws, refused) + Outcomes(c, b, handler, later, refused)
    decreases |b|
  {
    if b == [] {
      assert a + b == a;
    } else {
      var front := b[..|b| - 1];
      assert (a + b)[..|a + b| - 1] == a + front;
      assert (a + b)[|a + b| - 1] == b[|b| - 1];
      assert later(|b| - 1) == draws(|a + b| - 1);
      OutcomesAppend(c, a, front, handler, draws, later, refused);
      AppendAssoc(Outcomes(c, a, handler, draws, refused), Outcomes(c, front, handler, later, refused),
                  [Process(c, b[|b| - 1], handler, later(|b| - 1), refused)]);
    }
  }

  /**
   * Consuming `a` and then `b` in two runs, the second continuing the fresh
   * values where the first stopped, makes the broker calls of one run over `a + b`.
   */
  lemma {:induction false} ConsumeInTurn(c: Codec, a: seq<Option<string>>, b: seq<Option<string>>,
                                         handler: (Value, Draw) -> Result<Option<Publication>, JsError>,
                                         draws: nat -> Draw, later: nat -> Draw, refused: set<Call>)
    requires forall k: nat :: later(k) == draws(|a| + k)
    ensures SendsOf(Outcomes(c, a + b, handler, draws, refused), c.stringify)
            == SendsOf(Outcomes(c, a, handler, draws, refused), c.stringify)
               + SendsOf(Outcomes(c, b, handler, later, refused), c.stringify)
  {
    OutcomesAppend(c, a, b, handler, draws, later, refused);
    SendsOfAppend(Outcomes(c, a, handler, draws, refused), Outcomes(c, b, handler, later, refused), c.stringify);
  }

  /** Registry invariant: every group id in `order` once, in insertion order, each keying its consumer. */
  ghost predicate RegistryOk(order: seq<string>, consumers: map<string, Consumer>) {
    && (forall g :: g in consumers <==> g in order)
    && (forall i, j :: 0 <= i < j < |order| ==> order[i] != order[j])
    && (forall g :: g in consumers ==> consumers[g].groupId == g)
  }

  /** The calls `disconnect` makes: the producer, then each consumer in registry order. */
  function DisconnectPlan(order: seq<string>): seq<Call> {
    [ProducerDisconnect] + ConsumerDisconnects(order)
  }

  /** One consumer disconnect per group id of `order`, in that order. */
  function ConsumerDisconnects(order: seq<string>): seq<Call> {
    seq(|order|, i requires 0 <= i < |order| => ConsumerDisconnect(order[i]))
  }

  /** The disconnect plan starts with the producer and then closes every registered consumer exactly once. */
  lemma DisconnectCoversRegistry(order: seq<string>, consumers: map<string, Consumer>)
    requires RegistryOk(order, consumers)
    ensures |DisconnectPlan(order)| == |consumers| + 1
    ensures DisconnectPlan(order)[0] == ProducerDisconnect
    ensures forall g :: g in consumers ==> ConsumerDisconnect(g) in DisconnectPlan(order)[1..]
    ensures forall i, j :: 0 <= i < j < |DisconnectPlan(order)| ==> DisconnectPlan(order)[i] != DisconnectPlan(order)[j]
  {
    var plan := DisconnectPlan(order);
    forall g | g in consumers ensures ConsumerDisconnect(g) in plan[1..] {
      var i :| 0 <= i < |order| && order[i] == g;
      assert plan[1..][i] == ConsumerDisconnect(g);
    }
    RegistrySize(order, consumers);
  }

  lemma RegistrySize(order: seq<string>, consumers: map<string, Consumer>)
    requires RegistryOk(order, consumers)
    ensures |consumers| == |order|
  {
    assert consumers.Keys == ElementsOf(order);
    DistinctElements(order);
  }

  function ElementsOf(order: seq<string>): set<string> {
    set g | g in order
  }

  /** A sequence without repetitions has as many elements as its set. */
  lemma {:induction false} DistinctElements(order: seq<string>)
    requires forall i, j :: 0 <= i < j < |order| ==> order[i] != order[j]
    ensures |ElementsOf(order)| == |order|
    decreases |order|
  {
    if order != [] {
      var rest := order[..|order| - 1];
      var g := order[|order| - 1];
      DistinctElements(rest);
      assert ElementsOf(order) == ElementsOf(rest) + {g};
      assert g !in ElementsOf(rest);
    } else {
      assert ElementsOf(order) == {};
    }
  }

  class EventBus {
    const codec: Codec
    var topics: map<Topic, TopicSpec>
    var log: map<Topic, seq<Message>>
    var consumers: map<string, Consumer>
    var groupOrder: seq<string>
    var trace: seq<Call>

    ghost predicate Valid()
      reads this`consumers, this`groupOrder
    {
      RegistryOk(groupOrder, consumers)
    }

    /** The messages on topic `t`, oldest first. */
    function Logged(t: Topic): seq<Message>
      reads this`log
    {
      LogOf(log, t)
    }

    /** A bus with an empty registry over a broker holding `existing` topics and `log`. */
    constructor (codec: Codec, existing: map<Topic, TopicSpec>, log: map<Topic, seq<Message>>)
      ensures Valid()
      ensures this.codec == codec && topics == existing && this.log == log
      ensures consumers == map[] && groupOrder == [] && trace == []
    {
      this.codec := codec;
      topics := existing;
      this.log := log;
      consumers := map[];
      groupOrder := [];
      trace := [];
    }

    /** The message a publication sends, with the fresh values of `d`. */
    function MessageOf(p: Publication, d: Draw): Message {
      MakeMessage(EventOf(p, d), codec.stringify)
    }

    /**
     * Between the old state and this one, `publishEvent` was called once for
     * `p` with the fresh values of `d`: one send, appended unless rejected.
     */
    twostate predicate Published(p: Publication, d: Draw, refused: set<Call>)
      reads this
    {
      var m := MessageOf(p, d);
      && trace == old(trace) + [Send(p.topic, m)]
      && log == (if Send(p.topic, m) in refused then old(log) else old(log)[p.topic := old(Logged(p.topic)) + [m]])
      && unchanged(this`topics, this`consumers, this`groupOrder)
    }

    /** Awaits one client call; it succeeds unless the broker rejects it. */
    method Await(call: Call, refused: set<Call>) returns (ok: bool)
      modifies this`trace
      ensures trace == old(trace) + [call]
      ensures ok <==> call !in refused
    {
      trace := trace + [call];
      ok := call !in refused;
    }

    /**
     * Awaits each call of `calls` in turn; the first rejection is thrown and
     * ends the sequence.
     */
    method AwaitEach(calls: seq<Call>, refused: set<Call>) returns (r: Result<(), BusError>)
      modifies this`trace
      ensures trace == old(trace) + UntilRejected(calls, refused)
      ensures r.Ok? <==> forall c :: c in calls ==> c !in refused
      ensures r.Err? ==> exists k :: FirstRejected(calls, refused, k) && r.error.call == calls[k]
      ensures r.Err? ==> |trace| > 0 && r.error.call == trace[|trace| - 1]
    {
      for i := 0 to |calls|
        invariant trace == old(trace) + calls[..i]
        invariant forall j :: 0 <= j < i ==> calls[j] !in refused
      {
        var ok := Await(calls[i], refused);
        assert calls[..i + 1] == calls[..i] + [calls[i]];
        if !ok {
          UntilRejectedStops(calls, refused, i);
          assert FirstRejected(calls, refused, i);
          return Err(Rejected(calls[i]));
        }
      }
      assert calls[..|calls|] == calls;
      UntilRejectedAll(calls, refused);
      r := Ok(());
    }

    /**
     * The `createTopics` request of `initialize` inside its `try`: the topics
     * are provisioned when the broker accepts it; a rejection is only logged.
     */
    method CreateTopicsOnce(requests: seq<TopicSpec>, refused: set<Call>)
      modifies this`trace, this`topics
      ensures trace == old(trace) + [CreateTopics(requests)]
      ensures topics == if CreateTopics(requests) in refused then old(topics) else Provision(old(topics), requests)
    {
      var ok := Await(CreateTopics(requests), refused);
      if ok {
        topics := Provision(topics, requests);
      }
    }

    /**
     * `initialize`: connect the producer, connect an admin client, request
     * the three topics, disconnect the admin client. A rejected `createTopics`
     * is only logged; any other rejection is thrown.
     */
    method Initialize(refused: set<Call>) returns (r: Result<(), BusError>)
      modifies this`trace, this`topics
      ensures ProducerConnect in refused ==> trace == old(trace) + [ProducerConnect]
      ensures ProducerConnect !in refused && AdminConnect in refused
              ==> trace == old(trace) + [ProducerConnect, AdminConnect]
      ensures ProducerConnect !in refused && AdminConnect !in refused
              ==> trace == old(trace) + [ProducerConnect, AdminConnect, CreateTopics(TopicRequests()), AdminDisconnect]
      ensures (r.Ok? <==> ProducerConnect !in refused && AdminConnect !in refused && AdminDisconnect !in refused)
      ensures r.Err? ==> |trace| > 0 && r.error == Rejected(trace[|trace| - 1])
      ensures topics == if ProducerConnect !in refused && AdminConnect !in refused
                           && CreateTopics(TopicRequests()) !in refused
                        then Provision(old(topics), TopicRequests()) else old(topics)
      ensures unchanged(this`consumers, this`groupOrder, this`log)
    {
      var requests := TopicRequests();
      var ok := Await(ProducerConnect, refused);
      if !ok {
        return Err(Rejected(ProducerConnect));
      }
      ok := Await(AdminConnect, refused);
      AppendOne(old(trace), [ProducerConnect], AdminConnect);
      if !ok {
        return Err(Rejected(AdminConnect));
      }
      CreateTopicsOnce(requests, refused);
      AppendOne(old(trace), [ProducerConnect, AdminConnect], CreateTopics(requests));
      ok := Await(AdminDisconnect, refused);
      AppendOne(old(trace), [ProducerConnect, AdminConnect, CreateTopics(requests)], AdminDisconnect);
      if !ok {
        return Err(Rejected(AdminDisconnect));
      }
      r := Ok(());
    }

    /**
     * `publishEvent`: builds the event, sends one message keyed by the event
     * id, and returns the event; a rejected send is rethrown, never retried.
     */
    method PublishEvent(topic: Topic, eventType: EventType, data: Value, userId: Option<Value>,
                        id: string, timestamp: string, refused: set<Call>) returns (r: Result<Event, BusError>)
      modifies this`trace, this`log
      ensures var e := MakeEvent(id, eventType, timestamp, userId, data);
              var m := MakeMessage(e, codec.stringify);
              && trace == old(trace) + [Send(topic, m)]
              && (Send(topic, m) !in refused ==> r == Ok(e) && log == old(log)[topic := old(Logged(topic)) + [m]])
              && (Send(topic, m) in refused ==> r == Err(Rejected(Send(topic, m))) && log == old(log))
      ensures r.Ok? ==> && r.value.id == id && r.value.timestamp == timestamp
                        && r.value.eventType == eventType && r.value.data == data
                        && r.value.userId == (if userId.Some? then userId.value else Null)
      ensures unchanged(this`topics, this`consumers, this`groupOrder)
    {
      var event := MakeEvent(id, eventType, timestamp, userId, data);
      var message := MakeMessage(event, codec.stringify);
      var ok := Await(Send(topic, message), refused);
      if !ok {
        return Err(Rejected(Send(topic, message)));
      }
      log := log[topic := Logged(topic) + [message]];
      r := Ok(event);
    }

    /**
     * `createConsumer`: connect, subscribe and run a consumer for `groupId`,
     * then store it under `groupId`, replacing an earlier entry of that id.
     */
    method CreateConsumer(groupId: string, topicList: seq<Topic>, refused: set<Call>)
      returns (r: Result<Consumer, BusError>)
      requires Valid()
      modifies this`trace, this`consumers, this`groupOrder
      ensures Valid()
      ensures var steps := [ConsumerConnect(groupId), Subscribe(groupId, topicList), Run(groupId)];
              && trace == old(trace) + UntilRejected(steps, refused)
              && (r.Ok? <==> forall c :: c in steps ==> c !in refused)
      ensures r.Ok? ==> && r.value == Consumer(groupId, topicList)
                        && consumers == old(consumers)[groupId := r.value]
                        && groupOrder == if groupId in old(consumers) then old(groupOrder) else old(groupOrder) + [groupId]
      ensures r.Err? ==> consumers == old(consumers) && groupOrder == old(groupOrder)
      ensures r.Err? ==> var steps := [ConsumerConnect(groupId), Subscribe(groupId, topicList), Run(groupId)];
                         exists k :: FirstRejected(steps, refused, k) && r.error.call == steps[k]
      ensures unchanged(this`topics, this`log)
    {
      var steps := [ConsumerConnect(groupId), Subscribe(groupId, topicList), Run(groupId)];
      var awaited := AwaitEach(steps, refused);
      if awaited.Err? {
        return Err(awaited.error);
      }
      var consumer := Consumer(groupId, topicList);
      if groupId !in consumers {
        groupOrder := groupOrder + [groupId];
      }
      consumers := consumers[groupId := consumer];
      r := Ok(consumer);
    }

    /**
     * The `eachMessage` callback for one message (`None` for a null value):
     * parse, read and log `event.type`, handle; catch everything.
     */
    method EachMessage(raw: Option<string>, handler: (Value, Draw) -> Result<Option<Publication>, JsError>,
                       d: Draw, refused: set<Call>) returns (o: Outcome)
      modifies this`trace, this`log
      ensures o == Process(codec, raw, handler, d, refused)
      ensures trace == old(trace) + CallOf(o, codec.stringify)
      ensures forall t :: Logged(t) == old(Logged(t)) + AppendedBy(t, o, codec.stringify)
      ensures unchanged(this`topics, this`consumers, this`groupOrder)
    {
      if raw.None? {
        return Malformed;
      }
      var parsed := codec.parse(raw.value);
      if parsed.None? {
        return Malformed;
      }
      var event := parsed.value;
      var tag := GetProp(Some(event), "type");
      if tag.Err? {
        return Failed(tag.error);
      }
      var shown := Display(tag.value);
      if shown.Err? {
        return Failed(shown.error);
      }
      var handled := handler(event, d);
      if handled.Err? {
        return Failed(handled.error);
      }
      if handled.value.None? {
        return Handled;
      }
      var p := handled.value.value;
      var sent := PublishEvent(p.topic, p.eventType, p.data, p.userId, d.eventId, d.eventTime, refused);
      o := if sent.Ok? then Sent(p.topic, sent.value) else SendFailed(p.topic, EventOf(p, d));
    }

    /**
     * Runs `eachMessage` over the messages delivered to one consumer, in
     * order; message `i` gets the fresh values `draws(i)`.
     */
    method Consume(msgs: seq<Option<string>>, handler: (Value, Draw) -> Result<Option<Publication>, JsError>,
                   draws: nat -> Draw, refused: set<Call>) returns (report: seq<Outcome>)
      modifies this`trace, this`log
      ensures |report| == |msgs|
      ensures forall i :: 0 <= i < |msgs| ==> report[i] == Process(codec, msgs[i], handler, draws(i), refused)
      ensures trace == old(trace) + SendsOf(report, codec.stringify)
      ensures forall t :: Logged(t) == old(Logged(t)) + AppendedTo(t, report, codec.stringify)
      ensures unchanged(this`topics, this`consumers, this`groupOrder)
    {
      report := [];
      for i := 0 to |msgs|
        invariant report == Outcomes(codec, msgs[..i], handler, draws, refused)
        invariant trace == old(trace) + SendsOf(report, codec.stringify)
        invariant forall t :: Logged(t) == LogOf(old(log), t) + AppendedTo(t, report, codec.stringify)
      {
        report := ConsumeNext(msgs, i, report, handler, draws, refused, old(trace), old(log));
      }
      assert msgs[..|msgs|] == msgs;
      OutcomesAt(codec, msgs, handler, draws, refused);
    }

    /** One turn of `Consume`: message `i` is handled and its outcome added to the report. */
    method ConsumeNext(msgs: seq<Option<string>>, i: nat, report: seq<Outcome>,
                       handler: (Value, Draw) -> Result<Option<Publication>, JsError>,
                       draws: nat -> Draw, refused: set<Call>,
                       ghost trace0: seq<Call>, ghost log0: map<Topic, seq<Message>>)
      returns (next: seq<Outcome>)
      requires i < |msgs|
      requires report == Outcomes(codec, msgs[..i], handler, draws, refused)
      requires trace == trace0 + SendsOf(report, codec.stringify)
      requires forall t :: Logged(t) == LogOf(log0, t) + AppendedTo(t, report, codec.stringify)
      modifies this`trace, this`log
      ensures next == Outcomes(codec, msgs[..i + 1], handler, draws, refused)
      ensures trace == trace0 + SendsOf(next, codec.stringify)
      ensures forall t :: Logged(t) == LogOf(log0, t) + AppendedTo(t, next, codec.stringify)
    {
      label step:
      var o := EachMessage(msgs[i], handler, draws(i), refused);
      Snoc(report, o, codec.stringify);
      AppendAssoc(trace0, SendsOf(report, codec.stringify), CallOf(o, codec.stringify));
      forall t
        ensures Logged(t) == LogOf(log0, t) + AppendedTo(t, report + [o], codec.stringify)
      {
        assert old@step(Logged(t)) == LogOf(log0, t) + AppendedTo(t, report, codec.stringify);
        AppendAssoc(LogOf(log0, t), AppendedTo(t, report, codec.stringify), AppendedBy(t, o, codec.stringify));
      }
      assert msgs[..i + 1][..i] == msgs[..i];
      next := report + [o];
    }

    /**
     * `disconnect`: the producer first, then each registered consumer in
     * insertion order; the first rejection is thrown and ends the loop.
     */
    method Disconnect(refused: set<Call>) returns (r: Result<(), BusError>)
      requires Valid()
      modifies this`trace
      ensures trace == old(trace) + UntilRejected(DisconnectPlan(groupOrder), refused)
      ensures r.Ok? <==> forall c :: c in DisconnectPlan(groupOrder) ==> c !in refused
      ensures r.Err? ==> exists k :: FirstRejected(DisconnectPlan(groupOrder), refused, k)
                                     && r.error.call == DisconnectPlan(groupOrder)[k]
      ensures r.Ok? ==> forall g :: g in consumers ==> ConsumerDisconnect(g) in trace[|old(trace)|..]
      ensures unchanged(this`topics, this`consumers, this`groupOrder, this`log)
    {
      var plan := DisconnectPlan(groupOrder);
      r := AwaitEach(plan, refused);
      if r.Ok? {
        DisconnectCoversRegistry(groupOrder, consumers);
        UntilRejectedAll(plan, refused);
        assert trace[|old(trace)|..] == plan;
        forall g | g in consumers
          ensures ConsumerDisconnect(g) in plan
        {
          assert ConsumerDisconnect(g) in plan[1..];
        }
      }
    }
  }
}
