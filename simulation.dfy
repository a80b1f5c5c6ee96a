/** The simulated device a responder owns, and the command handlers that
    app-pong.py and app-pingpong.py share word for word (Temperature
    Reading, Weight Data, and every unknown type). The RGB handler is where
    the two responders differ; each has its own in its module. */
module Simulation {
  import opened Protocol

  /** A snapshot of the `device_state` record. `rgb` holds whatever object
      the last RGB handler stored; `rpm` whatever value `set_rpm` carried. */
  datatype DeviceState = DeviceState(rgb: map<string, Value>, temperature: real, rpm: Value)

  /** The record each responder process starts with. */
  const Initial := DeviceState(RgbData(Int(0), Int(0), Int(0)), 25.0, Int(0))

  /** One handled command: the device after it and the response to it. */
  datatype Step = Step(state: DeviceState, response: Response)

  const UnknownTypeReport: map<string, Value> := map["error" := Str("Unknown command type")]

  predicate IsKnownKind(kind: string) {
    kind == RgbCommand || kind == TemperatureReading || kind == WeightData
  }

  /** Response data of an applied RGB command. */
  function RgbReport(applied: map<string, Value>, x: Sample): map<string, Value> {
    map["current_state" := Str("applied"), "power_consumption" := Real(x.power),
        "applied_values" := Obj(applied)]
  }

  /** Response data of a Temperature Reading, given the new temperature. */
  function TemperatureReport(temperature: real, x: Sample): map<string, Value> {
    map["current_temperature" := Real(temperature), "humidity" := Real(x.humidity),
        "pressure" := Real(x.pressure)]
  }

  /** Response data of a Weight Data command, given the rpm after it. */
  function WeightReport(rpm: Value, x: Sample): map<string, Value> {
    map["calibrated_weight" := Real(x.weight), "current_rpm" := rpm,
        "stability" := Real(x.stability)]
  }

  /** Every branch of the dispatcher except "RGB Command". */
  function OtherStep(s: DeviceState, c: Command, x: Sample): (r: Step)
    requires c.kind != RgbCommand
    ensures r.response.kind == c.kind && r.response.sessionId == c.sessionId
    ensures r.response.timestamp == x.now
    ensures r.state.rgb == s.rgb
    ensures r.state.temperature != s.temperature ==> c.kind == TemperatureReading
    ensures r.state.rpm != s.rpm ==> SetsRpm(c) && r.state.rpm == Payload(c)["set_rpm"]
    ensures c.kind == TemperatureReading ==>
              && r.state.temperature == s.temperature + x.delta
              && "current_temperature" in r.response.data
              && r.response.data["current_temperature"] == Real(r.state.temperature)
    ensures c.kind == WeightData ==>
              && (r.state.rpm == if "set_rpm" in Payload(c) then Payload(c)["set_rpm"] else s.rpm)
              && "current_rpm" in r.response.data
              && r.response.data["current_rpm"] == r.state.rpm
    ensures !IsKnownKind(c.kind) ==> r.state == s && r.response.data == UnknownTypeReport
  {
    var data := Payload(c);
    if c.kind == TemperatureReading then
      var t := s.temperature + x.delta;
      Step(s.(temperature := t), Response(c.kind, TemperatureReport(t, x), x.now, c.sessionId))
    else if c.kind == WeightData then
      var rpm := if "set_rpm" in data then data["set_rpm"] else s.rpm;
      Step(s.(rpm := rpm), Response(c.kind, WeightReport(rpm, x), x.now, c.sessionId))
    else
      Step(s, Response(c.kind, UnknownTypeReport, x.now, c.sessionId))
  }

  /** The device record, updated in place by the handlers and the preview
      setters. */
  class Device {
    var rgb: map<string, Value>
    var temperature: real
    var rpm: Value

    function State(): DeviceState
      reads this
    {
      DeviceState(rgb, temperature, rpm)
    }

    constructor ()
      ensures State() == Initial
    {
      rgb := RgbData(Int(0), Int(0), Int(0));
      temperature := 25.0;
      rpm := Int(0);
    }

    method SetRgb(v: map<string, Value>)
      modifies this
      ensures State() == old(State()).(rgb := v)
    {
      rgb := v;
    }

    method SetTemperature(t: real)
      modifies this
      ensures State() == old(State()).(temperature := t)
    {
      temperature := t;
    }

    method SetRpm(v: Value)
      modifies this
      ensures State() == old(State()).(rpm := v)
    {
      rpm := v;
    }

    /** Runs the Temperature Reading, Weight Data or unknown-type branch on
        this device. */
    method ApplyOther(c: Command, x: Sample) returns (resp: Response)
      requires c.kind != RgbCommand
      modifies this
      ensures Step(State(), resp) == OtherStep(old(State()), c, x)
    {
      var data := Payload(c);
      var reply: map<string, Value>;
      if c.kind == TemperatureReading {
        temperature := temperature + x.delta;
        reply := TemperatureReport(temperature, x);
      } else if c.kind == WeightData {
        if "set_rpm" in data {
          rpm := data["set_rpm"];
        }
        reply := WeightReport(rpm, x);
      } else {
        reply := UnknownTypeReport;
      }
      resp := Response(c.kind, reply, x.now, c.sessionId);
    }
  }

  // ---------------------------------------------------------------------
  // Reference definitions for runs of several commands

  /** A command that overwrites the rpm. */
  predicate SetsRpm(c: Command) {
    c.kind == WeightData && "set_rpm" in Payload(c)
  }

  /** The rpm after a run of commands, read from its end: the `set_rpm` of
      the last command that carries one, or `initial` if none does. */
  function LastRpm(initial: Value, q: seq<Command>): Value {
    if q == [] then initial
    else if SetsRpm(q[|q| - 1]) then Payload(q[|q| - 1])["set_rpm"]
    else LastRpm(initial, q[..|q| - 1])
  }

  /** Running one command first and then the rest is the same as starting
      the rest from the rpm that one command leaves. */
  lemma {:induction false} LastRpmCons(initial: Value, c: Command, q: seq<Command>)
    ensures LastRpm(initial, [c] + q) == LastRpm(LastRpm(initial, [c]), q)
  {
    if q != [] {
      var last := q[|q| - 1];
      assert ([c] + q)[|[c] + q| - 1] == last;
      assert ([c] + q)[..|[c] + q| - 1] == [c] + q[..|q| - 1];
      if !SetsRpm(last) {
        LastRpmCons(initial, c, q[..|q| - 1]);
      }
    } else {
      assert [c] + q == [c];
    }
  }

  /** How many Temperature Reading commands a run holds. */
  function TemperatureReadings(q: seq<Command>): nat {
    if q == [] then 0
    else (if q[0].kind == TemperatureReading then 1 else 0) + TemperatureReadings(q[1..])
  }

  predicate AllInRange(xs: seq<Sample>) {
    forall i :: 0 <= i < |xs| ==> InRange(xs[i])
  }
}
