/** The older broker API (messaging.go), kept beside the current one: a broker that knows when
    it is ready, guards its management channel with a gate, tells its observers about every
    connect and disconnect, and reconnects after an abnormal close. The gate is the mutex
    `mainChannelUsed`, held while the broker is not connected. The disconnect handler and the
    reconnect timer run on other goroutines in Go; here they are methods the environment calls
    when the close notification arrives and when the timer fires. */
module Messaging {
  import opened Errors
  import opened Transport
  import Properties

  datatype BrokerOptions = BrokerOptions(
    encrypted: bool, address: string, user: string, password: string, autoTimestamp: bool)

  /** The URL scheme: the secure one exactly when encryption is asked for. */
  function Scheme(encrypted: bool): string
  {
    if encrypted then "amqps" else "amqp"
  }

  /** The broker URL `New` builds: scheme, credentials, host. */
  function Url(options: BrokerOptions): (url: string)
    ensures Scheme(options.encrypted) + "://" + options.user + ":" <= url
    ensures |url| > |options.address| && url[|url| - |options.address| - 1..] == "@" + options.address
  {
    Scheme(options.encrypted) + "://" + options.user + ":" + options.password + "@"
    + options.address
  }

  /** The scheme a URL names: everything before its first `:`. */
  function SchemeOf(url: string): string
  {
    if url == [] || url[0] == ':' then [] else [url[0]] + SchemeOf(url[1..])
  }

  lemma {:induction false} SchemeOfPrefix(scheme: string, rest: string)
    requires ':' !in scheme
    ensures SchemeOf(scheme + ":" + rest) == scheme
  {
    if scheme != [] {
      assert (scheme + ":" + rest)[1..] == scheme[1..] + ":" + rest;
      SchemeOfPrefix(scheme[1..], rest);
    } else {
      assert scheme + ":" + rest == ":" + rest;
    }
  }

  /** The URL names the secure scheme "amqps" exactly when the options ask for encryption,
      and "amqp" otherwise. */
  lemma UrlScheme(options: BrokerOptions)
    ensures SchemeOf(Url(options)) == Scheme(options.encrypted)
    ensures SchemeOf(Url(options)) == "amqps" <==> options.encrypted
    ensures SchemeOf(Url(options)) == "amqp" <==> !options.encrypted
  {
    var scheme := Scheme(options.encrypted);
    var rest := "//" + options.user + ":" + options.password + "@" + options.address;
    assert Url(options) == scheme + ":" + rest;
    SchemeOfPrefix(scheme, rest);
  }

  /** A message of the older API: as in message.go, without the Transient switch. */
  datatype Message = Message(
    exchange: string,
    routingKey: string,
    body: seq<byte>,
    headers: Table,
    timestamp: Time,
    contentType: string,
    correlationId: string,
    replyTo: string,
    expiration: Duration,
    ackFunc: bool -> Option<Error>,
    rejectFunc: bool -> Option<Error>,
    nackFunc: (bool, bool) -> Option<Error>)

  /** `Ack`: `multiple` pinned to false, the callback's error returned as it is. */
  function Ack(m: Message): (err: Option<Error>)
    ensures err == m.ackFunc(false)
  {
    m.ackFunc(false)
  }

  /** `Reject`: `requeue` passed through, the callback's error returned as it is. */
  function Reject(m: Message, requeue: bool): (err: Option<Error>)
    ensures err == m.rejectFunc(requeue)
  {
    m.rejectFunc(requeue)
  }

  /** `Nack`: `multiple` pinned to false, `requeue` passed through, the callback's error
      returned as it is. */
  function Nack(m: Message, requeue: bool): (err: Option<Error>)
    ensures err == m.nackFunc(false, requeue)
  {
    m.nackFunc(false, requeue)
  }

  /** The properties `Publish` sends for `msg`. The delivery mode is left unset. */
  function PublishingOf(msg: Message, autoTimestamp: bool, now: Time): (p: Publishing)
    ensures p.timestamp == Properties.FillTimestamp(autoTimestamp, msg.timestamp, now)
    ensures p.expiration == Properties.Expiration(msg.expiration)
    ensures p.deliveryMode == 0
    ensures p.contentType == msg.contentType && p.headers == msg.headers && p.body == msg.body
    ensures p.correlationId == msg.correlationId && p.replyTo == msg.replyTo
  {
    Publishing(
      msg.contentType, msg.headers, msg.body,
      Properties.FillTimestamp(autoTimestamp, msg.timestamp, now),
      msg.correlationId, msg.replyTo, Properties.Expiration(msg.expiration), 0)
  }

  /** A dependent told about connection changes, compared by identity. */
  datatype Observer = Observer(id: nat)

  datatype Notice = HandleConnect | HandleDisconnect

  datatype Step =
    | Notify(notice: Notice, observer: Observer)
    | Request(call: Call)
    | ScheduleReconnect(delaySeconds: int)

  /** `notes` tells every observer in `observers` once, and nobody else, about `notice`. */
  ghost predicate NotifiesEach(notes: seq<Step>, notice: Notice, observers: set<Observer>)
  {
    |notes| == |observers|
    && (forall k :: 0 <= k < |notes| ==>
          notes[k].Notify? && notes[k].notice == notice && notes[k].observer in observers)
    && (forall o :: o in observers ==> Notify(notice, o) in notes)
  }

  /** The seconds the reconnect timer waits. */
  const SecondsPerAttempt := 5

  class Broker {
    var url: string
    var isReady: bool
    var conn: Option<Conn>
    var gateLocked: bool          // `mainChannelUsed` is held
    var mainChannel: Option<Chan>
    var autoTimestamp: bool
    var observers: set<Observer>
    var reconnectAttempts: int

    /** Nothing in the file ever changes the attempt counter; the broker is only ready while the
        gate is open, and the gate is only open after a connection and channel were made. */
    ghost predicate Valid()
      reads this
    {
      reconnectAttempts == 0
      && (isReady ==> !gateLocked)
      && (!gateLocked ==> conn.Some? && mainChannel.Some?)
    }

    /** `New`: a broker that is not ready, has no observers, and holds its gate. */
    constructor New(options: BrokerOptions)
      ensures Valid()
      ensures url == Url(options) && autoTimestamp == options.autoTimestamp
      ensures !isReady && gateLocked && observers == {}
      ensures conn == None && mainChannel == None
    {
      url := Url(options);
      isReady := false;
      conn := None;
      gateLocked := true;
      mainChannel := None;
      autoTimestamp := options.autoTimestamp;
      observers := {};
      reconnectAttempts := 0;
    }

    /** The loop over `connectionObservers`, in the map's unspecified order. */
    method NotifyObservers(notice: Notice) returns (notes: seq<Step>)
      ensures NotifiesEach(notes, notice, observers)
    {
      var remaining := observers;
      notes := [];
      while remaining != {}
        invariant remaining <= observers
        invariant |notes| + |remaining| == |observers|
        invariant forall k :: 0 <= k < |notes| ==>
                    notes[k].Notify? && notes[k].notice == notice
                    && notes[k].observer in observers - remaining
        invariant forall o :: o in observers - remaining ==> Notify(notice, o) in notes
        decreases |remaining|
      {
        var o :| o in remaining;
        notes := notes + [Notify(notice, o)];
        remaining := remaining - {o};
      }
    }

    /** `Connect`: dials, opens the management channel, asks to be told when the connection
        closes, opens the gate, becomes ready and tells every observer. A failed dial or channel
        returns before the gate, the ready flag or any observer is touched. The gate must be
        held: opening an open gate is a fatal error in Go. */
    method Connect(dialResult: Returned<Conn>, channelResult: Returned<Chan>)
      returns (err: Option<Error>, steps: seq<Step>)
      requires Valid() && gateLocked
      modifies this
      ensures Valid()
      ensures url == old(url) && autoTimestamp == old(autoTimestamp)
      ensures observers == old(observers) && reconnectAttempts == old(reconnectAttempts)
      ensures conn == dialResult.Handle()
      ensures dialResult.Failed? ==>
                err == Some(Plain("could not connect to broker: " + Text(dialResult.error)))
                && steps == [Request(Dial(url))]
                && mainChannel == old(mainChannel)
      ensures dialResult.Success? ==> mainChannel == channelResult.Handle()
      ensures dialResult.Success? && channelResult.Failed? ==>
                err == Some(Plain("could not open channel to broker: " + Text(channelResult.error)))
                && steps == [Request(Dial(url)), Request(OpenChannel(dialResult.value))]
      ensures err.Some? ==> gateLocked && isReady == old(isReady)
      ensures err == None <==> dialResult.Success? && channelResult.Success?
      ensures err == None ==>
                !gateLocked && isReady && |steps| >= 3
                && steps[..3] == [Request(Dial(url)), Request(OpenChannel(dialResult.value)),
                                  Request(NotifyClose(dialResult.value))]
                && NotifiesEach(steps[3..], HandleConnect, observers)
    {
      steps := [Request(Dial(url))];
      conn := dialResult.Handle();
      if dialResult.Failed? {
        return Some(Plain("could not connect to broker: " + Text(dialResult.error))), steps;
      }
      var c := dialResult.value;
      steps := steps + [Request(OpenChannel(c))];
      mainChannel := channelResult.Handle();
      if channelResult.Failed? {
        return Some(Plain("could not open channel to broker: " + Text(channelResult.error))), steps;
      }
      steps := steps + [Request(NotifyClose(c))];
      gateLocked := false;
      isReady := true;
      var notes := NotifyObservers(HandleConnect);
      steps := steps + notes;
      assert steps[3..] == notes;
      err := None;
    }

    /** `disconnectHandler`, run when the close notification arrives: takes the gate, stops
        being ready and tells every observer. Only an abnormal close schedules a reconnect,
        after `reconnectAttempts * 5` seconds, which is always zero. */
    method DisconnectHandler(abnormal: bool) returns (steps: seq<Step>)
      requires Valid() && !gateLocked
      modifies this`gateLocked, this`isReady
      ensures Valid() && gateLocked && !isReady
      ensures |steps| == |observers| + (if abnormal then 1 else 0)
      ensures NotifiesEach(steps[..|observers|], HandleDisconnect, observers)
      ensures abnormal ==> steps[|observers|] == ScheduleReconnect(0)
    {
      gateLocked := true;
      isReady := false;
      steps := NotifyObservers(HandleDisconnect);
      if abnormal {
        steps := steps + [ScheduleReconnect(reconnectAttempts * SecondsPerAttempt)];
      }
    }

    /** The reconnect timer's function: connects, and on failure sets the timer again with the
        same delay, which is zero. */
    method RetryConnect(dialResult: Returned<Conn>, channelResult: Returned<Chan>)
      returns (err: Option<Error>, steps: seq<Step>)
      requires Valid() && gateLocked
      modifies this
      ensures Valid()
      ensures url == old(url) && autoTimestamp == old(autoTimestamp)
      ensures observers == old(observers) && reconnectAttempts == old(reconnectAttempts)
      ensures conn == dialResult.Handle()
      ensures dialResult.Failed? ==>
                err == Some(Plain("could not connect to broker: " + Text(dialResult.error)))
                && steps == [Request(Dial(url)), ScheduleReconnect(0)]
                && mainChannel == old(mainChannel)
      ensures dialResult.Success? ==> mainChannel == channelResult.Handle()
      ensures dialResult.Success? && channelResult.Failed? ==>
                err == Some(Plain("could not open channel to broker: " + Text(channelResult.error)))
                && steps == [Request(Dial(url)), Request(OpenChannel(dialResult.value)),
                             ScheduleReconnect(0)]
      ensures err.Some? ==> gateLocked && isReady == old(isReady)
      ensures err == None <==> dialResult.Success? && channelResult.Success?
      ensures err == None ==>
                !gateLocked && isReady && |steps| >= 3
                && steps[..3] == [Request(Dial(url)), Request(OpenChannel(dialResult.value)),
                                  Request(NotifyClose(dialResult.value))]
                && NotifiesEach(steps[3..], HandleConnect, observers)
    {
      err, steps := Connect(dialResult, channelResult);
      if err.Some? {
        steps := steps + [ScheduleReconnect(reconnectAttempts * SecondsPerAttempt)];
      }
    }

    /** `Publish`: waits for the gate (here: requires it open), fills the timestamp and
        expiration and publishes on the management channel to the message's own exchange and
        routing key, neither mandatory nor immediate. The transport's answer is returned as
        it is. */
    method Publish(msg: Message, now: Time, reply: Option<Error>)
      returns (err: Option<Error>, steps: seq<Step>)
      requires Valid() && !gateLocked
      ensures err == reply
      ensures steps == [Request(Call.Publish(mainChannel.value, msg.exchange, msg.routingKey, false,
                                        false, PublishingOf(msg, autoTimestamp, now)))]
    {
      steps := [Request(Call.Publish(mainChannel.value, msg.exchange, msg.routingKey, false, false,
                                PublishingOf(msg, autoTimestamp, now)))];
      err := reply;
    }

    /** `Close`: stops being ready and closes the connection, ignoring its answer. The gate and
        the observers are left to the disconnect handler the close triggers. */
    method Close() returns (steps: seq<Step>)
      requires Valid() && conn.Some?
      modifies this`isReady
      ensures Valid() && !isReady
      ensures steps == [Request(CloseConnection(conn.value))]
    {
      isReady := false;
      steps := [Request(CloseConnection(conn.value))];
    }

    /** `subscribe`: set insertion. */
    method Subscribe(obs: Observer)
      modifies this`observers
      ensures observers == old(observers) + {obs}
    {
      observers := observers + {obs};
    }

    /** `unsubscribe`: set deletion; an absent observer leaves the set as it was. */
    method Unsubscribe(obs: Observer)
      modifies this`observers
      ensures observers == old(observers) - {obs}
    {
      observers := observers - {obs};
    }
  }
}
