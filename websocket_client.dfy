/**
 * The gateway side of the exporter (websocket-client.js): a client that
 * numbers every command it sends with a counter starting at 1, answers the
 * server's version report with `start_listening`, and forwards every event
 * message to the Prometheus side.
 *
 * Messages are already decoded (no JSON parsing or serialising), and the socket
 * library is reduced to whether a socket exists and is open, plus the list of
 * frames it accepted.
 */
module WsClient {
  import opened JsValues
  import opened Prom

  /** An outbound command object before serialisation: property name to value.
      The order of its properties is not modelled. */
  type Json = map<string, JsValue>

  /** The extra fields of `initialize` and of `start_listening`. */
  const InitializeParams: Json := map["schemaVersion" := Num(0.0)]
  const NoParams: Json := map[]

  /** The object `sendCommand` builds: the stamped id and the command name, then
      every field of `params` spread over them, so that `params` wins a clash. */
  function CommandMessage(id: int, command: string, params: Json): (m: Json)
    ensures m.Keys == params.Keys + {"messageId", "command"}
    ensures forall k :: k in params ==> m[k] == params[k]
    ensures "messageId" !in params ==> m["messageId"] == Num(id as real)
    ensures "command" !in params ==> m["command"] == Str(command)
  {
    map["messageId" := Num(id as real), "command" := Str(command)] + params
  }

  /** The two commands the client sends, field by field. */
  lemma CommandShapes(id: int)
    ensures CommandMessage(id, "initialize", InitializeParams)
      == map["messageId" := Num(id as real), "command" := Str("initialize"), "schemaVersion" := Num(0.0)]
    ensures CommandMessage(id, "start_listening", NoParams)
      == map["messageId" := Num(id as real), "command" := Str("start_listening")]
  {
  }

  /** The socket field: `null` until `connect`, then a socket that is open or not. */
  datatype Socket = NoSocket | Socket(open: bool)

  /** A decoded inbound frame: an object with its `type` and its `event` (None
      when undefined), or the frame `null`. Any other non-object frame reads as
      an object whose `type` is undefined. */
  datatype Message =
    | Message(kind: JsValue, event: Option<ZwEvent>)
    | NullMessage

  /** The frame is an object whose `type` is `t`. */
  predicate HasType(m: Message, t: string) {
    m.Message? && m.kind == Str(t)
  }

  /** Everything the client and the Prometheus side hold between two messages. */
  datatype Session = Session(
    ws: Socket,
    messageId: int,
    outbox: seq<Json>,                   // frames the socket accepted, in order
    gauge: GaugeValues,
    forwarded: seq<Option<ZwEvent>>)     // events handed to the Prometheus side, in order

  /** The session of a client just constructed over a Prometheus side holding `g` and `f`. */
  function Initial(g: GaugeValues, f: seq<Option<ZwEvent>>): Session {
    Session(NoSocket, 1, [], g, f)
  }

  /** sendCommand: the id is taken and the counter advanced while the message is
      built, before the socket is touched, so a failed send still uses up an id. */
  function Send(s: Session, command: string, params: Json): (r: (Session, Outcome))
    ensures r.0.messageId == s.messageId + 1
    ensures r.0.ws == s.ws && r.0.gauge == s.gauge && r.0.forwarded == s.forwarded
    ensures r.1 == Completed <==> s.ws == Socket(true)
    ensures s.ws == NoSocket ==> r.1 == Threw(TypeError)
    ensures r.0.outbox == if s.ws == Socket(true) then s.outbox + [CommandMessage(s.messageId, command, params)] else s.outbox
  {
    var message := CommandMessage(s.messageId, command, params);
    var next := s.(messageId := s.messageId + 1);
    match s.ws
    case NoSocket => (next, Threw(TypeError))
    case Socket(open) =>
      if open then (next.(outbox := s.outbox + [message]), Completed)
      else (next, Threw(SocketNotOpen))
  }

  /** handleEvent: hand the event, unchanged, to the Prometheus side. */
  function Forward(s: Session, ev: Option<ZwEvent>): (r: (Session, Outcome))
    ensures r.0 == s.(gauge := Apply(s.gauge, ev), forwarded := s.forwarded + [ev])
    ensures r.1 == Completed <==> !Translate(ev).Failed?
  {
    (s.(gauge := Apply(s.gauge, ev), forwarded := s.forwarded + [ev]),
     if Translate(ev).Failed? then Threw(TypeError) else Completed)
  }

  /** handleMessage: dispatch on the message's `type`. */
  function Step(s: Session, m: Message): (r: (Session, Outcome))
    ensures r.0.ws == s.ws
    ensures r.0.messageId == s.messageId + (if HasType(m, "version") then 1 else 0)
    ensures r.0.forwarded == s.forwarded + (if HasType(m, "event") then [m.event] else [])
    ensures !HasType(m, "version") ==> r.0.outbox == s.outbox
    ensures !HasType(m, "event") ==> r.0.gauge == s.gauge
    ensures m.NullMessage? ==> r == (s, Threw(TypeError))
    ensures m.Message? && !HasType(m, "version") && !HasType(m, "event") ==> r == (s, Completed)
  {
    if m.NullMessage? then (s, Threw(TypeError))
    else if m.kind == Str("version") then Send(s, "start_listening", NoParams)
    else if m.kind == Str("result") then (s, Completed)
    else if m.kind == Str("event") then Forward(s, m.event)
    else (s, Completed)
  }

  /** Handling `ms` in order; an exception ends the run, since nothing in the client catches it. */
  function Run(s: Session, ms: seq<Message>): (r: (Session, Outcome))
    ensures r.0.ws == s.ws
    ensures r.0.messageId >= s.messageId
    ensures s.outbox <= r.0.outbox && s.forwarded <= r.0.forwarded
    decreases |ms|
  {
    if ms == [] then (s, Completed)
    else
      var (next, o) := Step(s, ms[0]);
      if o.Threw? then (next, o) else Run(next, ms[1..])
  }

  /** The number of version messages in `ms`. */
  function Versions(ms: seq<Message>): nat
    decreases |ms|
  {
    if ms == [] then 0 else (if HasType(ms[0], "version") then 1 else 0) + Versions(ms[1..])
  }

  /** The events carried by the event messages of `ms`, in order. */
  function Events(ms: seq<Message>): seq<Option<ZwEvent>>
    decreases |ms|
  {
    if ms == [] then [] else (if HasType(ms[0], "event") then [ms[0].event] else []) + Events(ms[1..])
  }

  /** `n` start_listening commands numbered from `first` on. */
  function StartListenings(first: int, n: nat): (r: seq<Json>)
    ensures |r| == n
    decreases n
  {
    if n == 0 then [] else [CommandMessage(first, "start_listening", NoParams)] + StartListenings(first + 1, n - 1)
  }

  /** The `i`th of those commands carries the id `first + i`. */
  lemma {:induction false} StartListeningAt(first: int, n: nat, i: nat)
    requires i < n
    ensures StartListenings(first, n)[i] == CommandMessage(first + i, "start_listening", NoParams)
    decreases n
  {
    if i > 0 {
      StartListeningAt(first + 1, n - 1, i - 1);
    } else if n > 1 {
      StartListeningAt(first + 1, n - 1, 0);
    }
  }

  /** A run that throws nothing advances the counter once per version message
      and sends one start_listening per version message, with consecutive ids. */
  lemma {:induction false} CompletedRunSends(s: Session, ms: seq<Message>)
    requires Run(s, ms).1 == Completed
    ensures Run(s, ms).0.ws == s.ws
    ensures Run(s, ms).0.messageId == s.messageId + Versions(ms)
    ensures Run(s, ms).0.outbox == s.outbox + StartListenings(s.messageId, Versions(ms))
    decreases |ms|
  {
    if ms != [] {
      var m := ms[0];
      var (next, o) := Step(s, m);
      assert o == Completed && Run(s, ms) == Run(next, ms[1..]);
      CompletedRunSends(next, ms[1..]);
      var rest := Versions(ms[1..]);
      if HasType(m, "version") {
        assert Versions(ms) == 1 + rest;
        assert next.outbox == s.outbox + [CommandMessage(s.messageId, "start_listening", NoParams)];
        assert StartListenings(s.messageId, 1 + rest)
          == [CommandMessage(s.messageId, "start_listening", NoParams)] + StartListenings(s.messageId + 1, rest);
      } else {
        assert Versions(ms) == rest && next.outbox == s.outbox;
      }
    }
  }

  /** A run that throws nothing forwards exactly the events of the event
      messages, in order. */
  lemma {:induction false} CompletedRunForwards(s: Session, ms: seq<Message>)
    requires Run(s, ms).1 == Completed
    ensures Run(s, ms).0.forwarded == s.forwarded + Events(ms)
    decreases |ms|
  {
    if ms != [] {
      var next := RunFirst(s, ms);
      CompletedRunForwards(next, ms[1..]);
    }
  }

  /** A run that throws nothing leaves the gauge as handling the forwarded
      events in turn. */
  lemma {:induction false} CompletedRunGauge(s: Session, ms: seq<Message>)
    requires Run(s, ms).1 == Completed
    ensures Run(s, ms).0.gauge == ApplyAll(s.gauge, Events(ms))
    decreases |ms|
  {
    if ms != [] {
      var next := RunFirst(s, ms);
      CompletedRunGauge(next, ms[1..]);
      var m, rest := ms[0], Events(ms[1..]);
      if HasType(m, "event") {
        var evs := [m.event] + rest;
        assert evs[0] == m.event && evs[1..] == rest;
        assert next.gauge == Apply(s.gauge, m.event);
        assert ApplyAll(s.gauge, evs) == ApplyAll(next.gauge, rest);
        assert Events(ms) == evs;
      } else {
        assert Events(ms) == rest && next.gauge == s.gauge;
      }
    }
  }

  /** One step of a run that throws nothing. */
  lemma RunFirst(s: Session, ms: seq<Message>) returns (next: Session)
    requires ms != [] && Run(s, ms).1 == Completed
    ensures next == Step(s, ms[0]).0 && Step(s, ms[0]).1 == Completed
    ensures Run(s, ms) == Run(next, ms[1..])
    ensures Events(ms) == (if HasType(ms[0], "event") then [ms[0].event] else []) + Events(ms[1..])
  {
    next := Step(s, ms[0]).0;
  }

  /** The id a command object carries, when it carries a numeric one. */
  function IdOf(m: Json): real {
    if "messageId" in m && m["messageId"].Num? then m["messageId"].n else -1.0
  }

  /** Every accepted frame carries an id below the counter, and ids strictly
      increase along the outbox: no id is ever sent twice. */
  predicate WellNumbered(s: Session) {
    && (forall i :: 0 <= i < |s.outbox| ==> 0.0 <= IdOf(s.outbox[i]) < s.messageId as real)
    && (forall i, j :: 0 <= i < j < |s.outbox| ==> IdOf(s.outbox[i]) < IdOf(s.outbox[j]))
  }

  /** A send whose params do not override the id keeps the numbering. */
  lemma SendKeepsNumbering(s: Session, command: string, params: Json)
    requires WellNumbered(s) && s.messageId >= 0
    requires "messageId" !in params
    ensures WellNumbered(Send(s, command, params).0)
  {
  }

  /** Any run, whether it throws or not, keeps the numbering. */
  lemma {:induction false} RunKeepsNumbering(s: Session, ms: seq<Message>)
    requires WellNumbered(s) && s.messageId >= 0
    ensures WellNumbered(Run(s, ms).0)
    decreases |ms|
  {
    if ms != [] {
      var m := ms[0];
      if HasType(m, "version") {
        SendKeepsNumbering(s, "start_listening", NoParams);
      }
      var next := Step(s, m).0;
      if Step(s, m).1 == Completed {
        RunKeepsNumbering(next, ms[1..]);
      }
    }
  }

  /** From a freshly constructed client whose socket then opens: `initialize`
      goes out with id 1, and each start_listening of a run that throws nothing
      carries the next id, 2, 3, and so on, with no gap and no repeat. */
  lemma FirstCommandsNumberedFromOne(g: GaugeValues, f: seq<Option<ZwEvent>>, ms: seq<Message>)
    requires var afterOpen := Send(Initial(g, f).(ws := Socket(true)), "initialize", InitializeParams).0;
      Run(afterOpen, ms).1 == Completed
    ensures var afterOpen := Send(Initial(g, f).(ws := Socket(true)), "initialize", InitializeParams).0;
      var out := Run(afterOpen, ms).0.outbox;
      && |out| == 1 + Versions(ms)
      && out[0] == CommandMessage(1, "initialize", InitializeParams)
      && forall i :: 0 <= i < |out| ==> IdOf(out[i]) == (i + 1) as real
  {
    var afterOpen := Send(Initial(g, f).(ws := Socket(true)), "initialize", InitializeParams).0;
    var init := CommandMessage(1, "initialize", InitializeParams);
    assert afterOpen.outbox == [init] && afterOpen.messageId == 2;
    CompletedRunSends(afterOpen, ms);
    StartListeningIds(2, Versions(ms));
    var later := StartListenings(2, Versions(ms));
    assert Run(afterOpen, ms).0.outbox == [init] + later;
  }

  /** Each of `n` start_listening commands numbered from `first` carries its own id. */
  lemma StartListeningIds(first: int, n: nat)
    ensures forall i :: 0 <= i < n ==> IdOf(StartListenings(first, n)[i]) == (first + i) as real
  {
    forall i | 0 <= i < n
      ensures IdOf(StartListenings(first, n)[i]) == (first + i) as real
    {
      StartListeningAt(first, n, i);
    }
  }

  /** The client object (class ZwaveWebSocketClient). */
  class ZwaveWebSocketClient {
    const url: string
    const promClient: PromClient
    var ws: Socket
    var messageId: int
    /** The frames the socket accepted, in order. */
    var outbox: seq<Json>

    /** The session this client and its Prometheus side are in. */
    ghost function State(): Session
      reads this, promClient
    {
      Session(ws, messageId, outbox, promClient.gauge, promClient.received)
    }

    constructor (url: string, promClient: PromClient)
      ensures this.url == url && this.promClient == promClient
      ensures State() == Initial(promClient.gauge, promClient.received)
    {
      this.url := url;
      this.promClient := promClient;
      ws := NoSocket;
      messageId := 1;
      outbox := [];
    }

    /** connect: a new socket, still connecting. The event hooks are the methods below. */
    method Connect()
      modifies this
      ensures State() == old(State()).(ws := Socket(false))
    {
      ws := Socket(false);
    }

    /** The `open` hook: the socket library marks the socket open, then the client initialises. */
    method OnOpen() returns (o: Outcome)
      requires ws.Socket?
      modifies this
      ensures (State(), o) == Send(old(State()).(ws := Socket(true)), "initialize", InitializeParams)
    {
      ws := Socket(true);
      o := SendInitialize();
    }

    /** sendCommand */
    method SendCommand(command: string, params: Json) returns (o: Outcome)
      modifies this
      ensures (State(), o) == Send(old(State()), command, params)
    {
      var id := messageId;
      messageId := messageId + 1;
      var message := map["messageId" := Num(id as real), "command" := Str(command)] + params;
      match ws
      case NoSocket =>
        o := Threw(TypeError);
      case Socket(open) =>
        if open {
          outbox := outbox + [message];
          o := Completed;
        } else {
          o := Threw(SocketNotOpen);
        }
    }

    /** sendInitialize */
    method SendInitialize() returns (o: Outcome)
      modifies this
      ensures (State(), o) == Send(old(State()), "initialize", InitializeParams)
    {
      o := SendCommand("initialize", InitializeParams);
    }

    /** sendStartListening */
    method SendStartListening() returns (o: Outcome)
      modifies this
      ensures (State(), o) == Send(old(State()), "start_listening", NoParams)
    {
      o := SendCommand("start_listening", NoParams);
    }

    /** handleMessage */
    method HandleMessage(m: Message) returns (o: Outcome)
      modifies this, promClient
      ensures (State(), o) == Step(old(State()), m)
    {
      if m.NullMessage? {
        o := Threw(TypeError);
      } else if m.kind == Str("version") {
        o := SendStartListening();
      } else if m.kind == Str("result") {
        o := Completed;
      } else if m.kind == Str("event") {
        o := HandleEvent(m.event);
      } else {
        o := Completed;
      }
    }

    /** handleEvent */
    method HandleEvent(ev: Option<ZwEvent>) returns (o: Outcome)
      modifies promClient
      ensures (State(), o) == Forward(old(State()), ev)
    {
      o := promClient.HandleEvent(ev);
    }
  }
}
