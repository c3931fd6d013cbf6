/**
 * The state server.js keeps between requests: the `latest_data` cell, the
 * simulation configuration and its interval timer, and the operations that change
 * them: the MQTT message handler, `startSimulation`, the tick callback,
 * `stopSimulation` and the `/api/simulate` handler. Timers are modelled as the
 * runtime's list of live intervals, so that "at most one simulation timer" is a
 * property of the code rather than of the model; a tick is an explicit call.
 */
module Server {
  import opened JsValues
  import opened JsText
  import Simulator

  /** `latest_data`: the parsed payload last accepted, stamped on arrival. */
  datatype LatestData =
    | Record(humedad: Value, temperatura: Value, timestamp: int, source: Value)
      /** A payload that parsed to a string, number or boolean: the timestamp write is ignored. */
    | Scalar(v: Value)
  {
    /** `data.humedad` as a client reads it; a scalar payload has no such field. */
    function Humedad(): Value {
      if Record? then humedad else Undefined
    }

    function Temperatura(): Value {
      if Record? then temperatura else Undefined
    }
  }

  /** What `JSON.parse` made of an MQTT payload; other fields of an object are not tracked. */
  datatype Message =
    | Malformed
    | JsonNull
    | JsonScalar(v: Value)
    | JsonObject(humedad: Value, temperatura: Value, source: Value)

  /** `simulationConfig` */
  datatype SimulationConfig = SimulationConfig(enabled: bool, pattern: Value, interval: Number)

  const StoppedConfig := SimulationConfig(false, Str("alternate"), Real(5000.0))

  /** A live `setInterval` timer of the simulation; `toggle` is its closure variable. */
  datatype Timer = Timer(id: nat, pattern: Value, interval: Number, toggle: bool)

  /** The fields of a `/api/simulate` request body; an absent body or field is Undefined. */
  datatype SimulateBody = SimulateBody(enable: Value, pattern: Value, interval: Value)

  /** The JSON answered by `/api/simulate`: only a start carries the configuration. */
  datatype SimulateReply = Started(config: SimulationConfig) | Stopped

  /** The JSON answered by `/api/simulate/status`. */
  datatype StatusReply = StatusReply(enabled: bool, config: SimulationConfig, latest: LatestData)

  /** The placeholder reading the server starts with. */
  function SeedData(bootTime: int): LatestData {
    Record(Num(Real(81.5)), Num(Real(22.0)), bootTime, Undefined)
  }

  /** A simulated payload as the tick stores it. */
  function SimulatedData(s: Simulator.Sample, now: int): LatestData {
    Record(Num(Real(s.humedad)), Num(Real(s.temperatura)), now, Str("server-sim"))
  }

  /** `body.pattern || 'alternate'` */
  function RequestedPattern(body: SimulateBody): (p: Value)
    ensures Truthy(p)
  {
    Or(body.pattern, Str("alternate"))
  }

  /** `parseInt(body.interval || 5000, 10)` */
  function RequestedInterval(body: SimulateBody): Number {
    ParseIntValue(Or(body.interval, Num(Real(5000.0))))
  }

  /** `clearInterval(id)`: the live timers without that one. */
  function ClearInterval(timers: seq<Timer>, id: nat): (r: seq<Timer>)
    ensures forall t :: t in r <==> t in timers && t.id != id
    decreases |timers|
  {
    if timers == [] then []
    else (if timers[0].id == id then [] else [timers[0]]) + ClearInterval(timers[1..], id)
  }

  class ServerState {
    var latest: LatestData
    var config: SimulationConfig
    /** `simulationIntervalId` */
    var intervalId: Option<nat>
    /** The intervals the runtime keeps firing. */
    var timers: seq<Timer>
    var nextId: nat

    /** Stopped with the default configuration, or exactly one live timer, the recorded one. */
    ghost predicate Valid()
      reads this
    {
      || (timers == [] && intervalId == None && config == StoppedConfig)
      || (&& |timers| == 1
          && intervalId == Some(timers[0].id)
          && config == SimulationConfig(true, timers[0].pattern, timers[0].interval))
    }

    constructor (bootTime: int)
      ensures Valid()
      ensures latest == SeedData(bootTime) && config == StoppedConfig && timers == []
    {
      latest := SeedData(bootTime);
      config := StoppedConfig;
      intervalId := None;
      timers := [];
      nextId := 0;
    }

    /** `res.json(latest_data)` of `/api/datos_actuales`. */
    function DatosActuales(): (r: LatestData)
      reads this
      ensures r == latest
    {
      latest
    }

    /** `/api/simulate/status` */
    function SimulateStatus(): (r: StatusReply)
      reads this
      ensures r.enabled == config.enabled && r.config == config && r.latest == latest
    {
      StatusReply(config.enabled, config, latest)
    }

    /** `stopSimulation`: clears the live timer, if any, and resets the configuration. */
    method Stop()
      requires Valid()
      modifies this`timers, this`intervalId, this`config
      ensures Valid()
      ensures timers == [] && intervalId == None && config == StoppedConfig
    {
      if intervalId.Some? {
        assert ClearInterval(timers[1..], intervalId.value) == [];
        timers := ClearInterval(timers, intervalId.value);
        intervalId := None;
      }
      config := StoppedConfig;
    }

    /**
     * `startSimulation(pattern, interval)`: stops any running simulation first, so
     * the new timer is the only one, with its alternation flag set to true.
     */
    method Start(pattern: Value, interval: Number)
      requires Valid()
      modifies this`timers, this`intervalId, this`config, this`nextId
      ensures Valid()
      ensures config == SimulationConfig(true, pattern, interval)
      ensures timers == [Timer(old(nextId), pattern, interval, true)]
      ensures intervalId == Some(old(nextId)) && nextId == old(nextId) + 1
    {
      Stop();
      config := SimulationConfig(true, pattern, interval);
      timers := timers + [Timer(nextId, pattern, interval, true)];
      intervalId := Some(nextId);
      nextId := nextId + 1;
    }

    /**
     * One firing of live timer k: picks the mode its pattern asks for, generates a
     * reading, stamps it and overwrites `latest_data`; "alternate" flips the flag.
     */
    method Tick(k: nat, draws: seq<real>, now: int) returns (sample: Simulator.Sample)
      requires Valid() && k < |timers|
      requires Simulator.RandomDraws(draws) && |draws| >= Simulator.DrawsPerTick
      modifies this`timers, this`latest
      ensures Valid()
      ensures var t := old(timers[k]);
        && sample == Simulator.TickSample(t.pattern, t.toggle, draws)
        && timers == old(timers)[k := t.(toggle := Simulator.NextToggle(t.pattern, t.toggle))]
      ensures latest == SimulatedData(sample, now)
    {
      var t := timers[k];
      var mode: string;
      var used := 0;
      if t.pattern == Str("alternate") {
        if t.toggle {
          mode := "optimal";
        } else {
          mode := if draws[0] < 0.5 then "alert_low" else "alert_high";
          used := 1;
        }
        t := t.(toggle := !t.toggle);
      } else if t.pattern == Str("random") {
        mode := "random";
      } else if t.pattern == Str("always_optimal") {
        mode := "optimal";
      } else if t.pattern == Str("always_alert") {
        mode := if draws[0] < 0.5 then "alert_low" else "alert_high";
        used := 1;
      } else {
        mode := "random";
      }
      sample := Simulator.Generate(mode, draws[used..]).0;
      timers := timers[k := t];
      latest := SimulatedData(sample, now);
    }

    /**
     * The MQTT `message` handler: a payload that parses replaces `latest_data`,
     * stamped with the arrival time; one that does not parse, or parses to null
     * (whose timestamp write throws), is logged and changes nothing.
     */
    method OnMessage(msg: Message, now: int)
      modifies this`latest
      ensures msg.Malformed? || msg.JsonNull? ==> latest == old(latest)
      ensures msg.JsonScalar? ==> latest == Scalar(msg.v)
      ensures msg.JsonObject? ==> latest == Record(msg.humedad, msg.temperatura, now, msg.source)
    {
      match msg {
        case Malformed =>
        case JsonNull =>
        case JsonScalar(v) =>
          latest := Scalar(v);
        case JsonObject(h, t, source) =>
          latest := Record(h, t, now, source);
      }
    }

    /**
     * `POST /api/simulate`: starts only when `enable` is exactly `true`, with the
     * pattern defaulting to "alternate" and the interval to 5000; otherwise stops.
     */
    method Simulate(body: SimulateBody) returns (reply: SimulateReply)
      requires Valid()
      modifies this`timers, this`intervalId, this`config, this`nextId
      ensures Valid()
      ensures body.enable == Bool(true) ==>
        && config == SimulationConfig(true, RequestedPattern(body), RequestedInterval(body))
        && reply == Started(config)
        && timers == [Timer(old(nextId), RequestedPattern(body), RequestedInterval(body), true)]
        && intervalId == Some(old(nextId)) && nextId == old(nextId) + 1
      ensures body.enable != Bool(true) ==>
        && reply == Stopped && config == StoppedConfig
        && timers == [] && intervalId == None && nextId == old(nextId)
    {
      if body.enable == Bool(true) {
        Start(RequestedPattern(body), RequestedInterval(body));
        reply := Started(config);
      } else {
        Stop();
        reply := Stopped;
      }
    }
  }

  // ------------------------------------------------------------ request defaults

  /** An absent, empty, zero or false interval falls back to 5000 ms. */
  lemma DefaultInterval(body: SimulateBody)
    requires !Truthy(body.interval)
    ensures RequestedInterval(body) == Real(5000.0)
  {
  }

  /** A decimal interval text is taken at its value. */
  lemma IntervalFromText(body: SimulateBody, n: nat)
    requires body.interval == Str(NatText(n))
    ensures RequestedInterval(body) == Real(n as real)
  {
    ParseIntOfNatText(n, []);
    assert NatText(n) + [] == NatText(n);
  }

  /** A missing or falsy pattern means "alternate"; any other value is kept as sent. */
  lemma PatternDefault(body: SimulateBody)
    ensures !Truthy(body.pattern) ==> RequestedPattern(body) == Str("alternate")
    ensures Truthy(body.pattern) ==> RequestedPattern(body) == body.pattern
  {
  }

  // ------------------------------------------------------------ scenarios

  /**
   * Starting "alternate" on a fresh server and letting its timer fire twice: the
   * first reading lies in the optimal band, the second in an alert band.
   */
  method AlternateTwoTicks(bootTime: int, d1: seq<real>, d2: seq<real>, t1: int, t2: int)
    returns (first: Simulator.Sample, second: Simulator.Sample)
    requires Simulator.RandomDraws(d1) && |d1| >= Simulator.DrawsPerTick
    requires Simulator.RandomDraws(d2) && |d2| >= Simulator.DrawsPerTick
    ensures Simulator.InBand(first, Simulator.OptimalBand)
    ensures !Simulator.InBand(second, Simulator.OptimalBand)
    ensures Simulator.InBand(second, Simulator.AlertLowBand) || Simulator.InBand(second, Simulator.AlertHighBand)
  {
    var server := new ServerState(bootTime);
    server.Start(Str("alternate"), Real(1000.0));
    first := server.Tick(0, d1, t1);
    assert server.latest == SimulatedData(first, t1);
    second := server.Tick(0, d2, t2);
  }

  /**
   * `POST /api/simulate` with `{enable: true}` and no pattern on a fresh server:
   * the timer it starts alternates, so its first reading lies in the optimal band.
   */
  method SimulateDefaultFirstTick(bootTime: int, draws: seq<real>, now: int) returns (first: Simulator.Sample)
    requires Simulator.RandomDraws(draws) && |draws| >= Simulator.DrawsPerTick
    ensures Simulator.InBand(first, Simulator.OptimalBand)
  {
    var server := new ServerState(bootTime);
    var reply := server.Simulate(SimulateBody(Bool(true), Undefined, Undefined));
    first := server.Tick(0, draws, now);
  }

  /** A payload that does not parse leaves what `/api/datos_actuales` answers as it was. */
  method MalformedPayloadIgnored(bootTime: int, now: int) returns (before: LatestData, after: LatestData)
    ensures before == SeedData(bootTime) && after == before
  {
    var server := new ServerState(bootTime);
    before := server.DatosActuales();
    server.OnMessage(Malformed, now);
    after := server.DatosActuales();
  }
}
