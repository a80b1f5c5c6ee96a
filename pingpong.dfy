/** app-pingpong.py: a commander and a responder in one process, sharing
    one set of globals. The commander side publishes commands (and puts its
    RGB commands on the local command queue too) and drains the responses
    its subscription delivered; the responder side drains the command
    queue, and its dispatcher publishes each response itself when the pong
    client exists. Unlike app-pong.py, the RGB handler coerces each channel
    with `int(...)`, which can raise. */
module PingPong {
  import opened Protocol
  import opened Simulation

  const PingNotReady := "Please initialize ping first"
  const NoResponses := "No new responses"
  const NoCommands := "No new commands"

  /** `int(data.get(key, 0))` for one colour channel. */
  function Channel(data: map<string, Value>, key: string): Result<int, Fault> {
    PyInt(GetOr(data, key, Int(0)))
  }

  /** The colour record the RGB handler rebinds: each channel coerced with
      `int(...)`, a missing channel read as 0, nothing clamped; the first
      channel (in r, g, b order) that cannot be converted raises. */
  function CoerceRgb(data: map<string, Value>): (r: Result<map<string, Value>, Fault>)
    ensures r.Success? <==>
              Channel(data, "r").Success? && Channel(data, "g").Success? && Channel(data, "b").Success?
    ensures r.Success? ==>
              && r.value.Keys == {"r", "g", "b"}
              && r.value["r"] == Int(Channel(data, "r").value)
              && r.value["g"] == Int(Channel(data, "g").value)
              && r.value["b"] == Int(Channel(data, "b").value)
    ensures r.Failure? ==>
              r.error == if Channel(data, "r").Failure? then Channel(data, "r").error
                         else if Channel(data, "g").Failure? then Channel(data, "g").error
                         else Channel(data, "b").error
  {
    var r := Channel(data, "r");
    if r.Failure? then Failure(r.error) else
    var g := Channel(data, "g");
    if g.Failure? then Failure(g.error) else
    var b := Channel(data, "b");
    if b.Failure? then Failure(b.error) else
    Success(RgbData(Int(r.value), Int(g.value), Int(b.value)))
  }

  /** Integer channels come back exactly as sent: no clamping, no change. */
  lemma CoerceRgbIntegers(r: int, g: int, b: int)
    ensures CoerceRgb(RgbData(Int(r), Int(g), Int(b))) == Success(RgbData(Int(r), Int(g), Int(b)))
  {
  }

  /** Each missing channel reads as 0, whatever the other two carry; a
      payload with no channel at all gives black. */
  lemma CoerceRgbMissing(data: map<string, Value>, key: string)
    requires key == "r" || key == "g" || key == "b"
    requires key !in data
    ensures CoerceRgb(data).Success? ==> CoerceRgb(data).value[key] == Int(0)
    ensures "r" !in data && "g" !in data && "b" !in data ==>
              CoerceRgb(data) == Success(RgbData(Int(0), Int(0), Int(0)))
  {
  }

  /** Slider values sent in an RGB command are applied exactly as the RGB
      preview applies them: truncated toward zero. */
  lemma CoerceRgbSliders(r: real, g: real, b: real)
    ensures CoerceRgb(RgbData(Real(r), Real(g), Real(b))) ==
            Success(RgbData(Int(Trunc(r)), Int(Trunc(g)), Int(Trunc(b))))
  {
  }

  /** The dispatcher raises on `c`: an RGB command one of whose channels
      `int(...)` rejects. */
  predicate Raises(c: Command) {
    c.kind == RgbCommand && CoerceRgb(Payload(c)).Failure?
  }

  /** The dispatcher. It fails only on an RGB command whose channels
      `int(...)` rejects, and then the device is untouched. */
  function Handle(s: DeviceState, c: Command, x: Sample): (r: Result<Step, Fault>)
    ensures r.Failure? <==> c.kind == RgbCommand && CoerceRgb(Payload(c)).Failure?
    ensures r.Failure? ==> r.error == CoerceRgb(Payload(c)).error
    ensures r.Success? ==>
              && r.value.response.kind == c.kind
              && r.value.response.sessionId == c.sessionId
              && r.value.response.timestamp == x.now
    ensures r.Success? && c.kind == RgbCommand ==>
              && r.value.state == s.(rgb := CoerceRgb(Payload(c)).value)
              && "applied_values" in r.value.response.data
              && r.value.response.data["applied_values"] == Obj(r.value.state.rgb)
    ensures c.kind != RgbCommand ==> r == Success(OtherStep(s, c, x))
  {
    if c.kind == RgbCommand then
      var coerced := CoerceRgb(Payload(c));
      if coerced.Failure? then Failure(coerced.error)
      else Success(Step(s.(rgb := coerced.value),
                        Response(c.kind, RgbReport(coerced.value, x), x.now, c.sessionId)))
    else
      Success(OtherStep(s, c, x))
  }

  /** The result of draining a command queue: the device after it, the
      responses produced, the commands left queued, and the exception that
      stopped the drain, if one did. */
  datatype Run = Run(state: DeviceState, responses: seq<Response>, rest: seq<Command>, fault: Option<Fault>)

  /** Handles `q` front to back, the i-th command drawing from `xs[i]`,
      until a command raises; that command has already left the queue and
      the ones after it stay queued. */
  function RunQueue(s: DeviceState, q: seq<Command>, xs: seq<Sample>): (r: Run)
    requires |xs| >= |q|
    ensures r.fault.None? ==> r.rest == [] && |r.responses| == |q|
    ensures r.fault.Some? ==>
              && |r.responses| < |q|
              && r.rest == q[|r.responses| + 1..]
              && Raises(q[|r.responses|])
              && r.fault.value == CoerceRgb(Payload(q[|r.responses|])).error
    decreases |q|
  {
    if q == [] then Run(s, [], [], None)
    else
      match Handle(s, q[0], xs[0])
      case Failure(e) => Run(s, [], q[1..], Some(e))
      case Success(h) =>
        var t := RunQueue(h.state, q[1..], xs[1..]);
        Run(t.state, [h.response] + t.responses, t.rest, t.fault)
  }

  /** Where a drain stops: it ends without an exception exactly when no
      queued command raises, and otherwise at the first one that does. */
  lemma {:induction false} RunStops(s: DeviceState, q: seq<Command>, xs: seq<Sample>)
    requires |xs| >= |q|
    decreases |q|
    ensures RunQueue(s, q, xs).fault.None? <==> forall i :: 0 <= i < |q| ==> !Raises(q[i])
    ensures forall i :: 0 <= i < |RunQueue(s, q, xs).responses| ==> !Raises(q[i])
  {
    if q != [] {
      match Handle(s, q[0], xs[0])
      case Failure(_) =>
        assert Raises(q[0]);
      case Success(h) =>
        var t := RunQueue(h.state, q[1..], xs[1..]);
        assert !Raises(q[0]);
        assert RunQueue(s, q, xs) == t.(responses := [h.response] + t.responses);
        RunStops(h.state, q[1..], xs[1..]);
        forall i | 1 <= i < |q| ensures q[i] == q[1..][i - 1] { }
    }
  }

  /** `whole` is `tail` with `done` produced before it. */
  predicate Continues(whole: Run, done: seq<Response>, tail: Run) {
    whole == tail.(responses := done + tail.responses)
  }

  /** A command that raises ends the run: what remained before it is the
      whole run from there on. */
  lemma RunAdvanceFailure(s0: DeviceState, q0: seq<Command>, xs: seq<Sample>, i: nat,
                          cur: DeviceState, done: seq<Response>, e: Fault)
    requires |xs| >= |q0| && i < |q0| && Handle(cur, q0[i], xs[i]) == Failure(e)
    requires Continues(RunQueue(s0, q0, xs), done, RunQueue(cur, q0[i..], xs[i..]))
    ensures RunQueue(s0, q0, xs) == Run(cur, done, q0[i + 1..], Some(e))
  {
    assert q0[i..][0] == q0[i] && q0[i..][1..] == q0[i + 1..];
  }

  /** One more command handled, in terms of the run that remained before
      it. */
  lemma RunAdvanceSuccess(s0: DeviceState, q0: seq<Command>, xs: seq<Sample>, i: nat,
                          cur: DeviceState, done: seq<Response>, h: Step)
    requires |xs| >= |q0| && i < |q0| && Handle(cur, q0[i], xs[i]) == Success(h)
    requires Continues(RunQueue(s0, q0, xs), done, RunQueue(cur, q0[i..], xs[i..]))
    ensures Continues(RunQueue(s0, q0, xs), done + [h.response], RunQueue(h.state, q0[i + 1..], xs[i + 1..]))
  {
    assert q0[i..][0] == q0[i] && q0[i..][1..] == q0[i + 1..];
    assert xs[i..][0] == xs[i] && xs[i..][1..] == xs[i + 1..];
    var t := RunQueue(h.state, q0[i + 1..], xs[i + 1..]);
    assert RunQueue(cur, q0[i..], xs[i..]) == t.(responses := [h.response] + t.responses);
    assert done + ([h.response] + t.responses) == (done + [h.response]) + t.responses;
  }

  /** The i-th response of a drain is what the dispatcher answers to the
      i-th command, from the device state the first i commands left. */
  lemma {:induction false} RunStepwise(s: DeviceState, q: seq<Command>, xs: seq<Sample>, i: nat)
    requires |xs| >= |q| && i < |RunQueue(s, q, xs).responses|
    decreases |q|
    ensures RunQueue(s, q[..i], xs).fault.None?
    ensures var h := Handle(RunQueue(s, q[..i], xs).state, q[i], xs[i]);
            h.Success? && h.value.response == RunQueue(s, q, xs).responses[i]
  {
    var h := Handle(s, q[0], xs[0]).value;
    if i == 0 {
      assert q[..0] == [];
    } else {
      RunStepwise(h.state, q[1..], xs[1..], i - 1);
      TailOfPrefix(q, i);
    }
  }

  /** Every response of a drain echoes its own command's type and session. */
  lemma RunEchoes(s: DeviceState, q: seq<Command>, xs: seq<Sample>)
    requires |xs| >= |q|
    ensures forall i :: 0 <= i < |RunQueue(s, q, xs).responses| ==>
              && RunQueue(s, q, xs).responses[i].kind == q[i].kind
              && RunQueue(s, q, xs).responses[i].sessionId == q[i].sessionId
  {
    forall i | 0 <= i < |RunQueue(s, q, xs).responses|
      ensures RunQueue(s, q, xs).responses[i].kind == q[i].kind
      ensures RunQueue(s, q, xs).responses[i].sessionId == q[i].sessionId
    {
      RunStepwise(s, q, xs, i);
    }
  }

  /** Last write wins over the commands a drain handled. */
  lemma {:induction false} RunRpm(s: DeviceState, q: seq<Command>, xs: seq<Sample>)
    requires |xs| >= |q|
    decreases |q|
    ensures RunQueue(s, q, xs).state.rpm == LastRpm(s.rpm, q[..|RunQueue(s, q, xs).responses|])
  {
    if q != [] {
      match Handle(s, q[0], xs[0])
      case Failure(_) =>
        assert q[..0] == [];
      case Success(h) =>
        var t := RunQueue(h.state, q[1..], xs[1..]);
        var n := |t.responses|;
        RunRpm(h.state, q[1..], xs[1..]);
        LastRpmCons(s.rpm, q[0], q[1..][..n]);
        PrefixOfTail(q, n);
        assert [q[0]][..0] == [];
    }
  }

  /** A drain moves the temperature by at most half a degree per Temperature
      Reading command it handled; the commands left queued behind a raising
      one do not count. */
  lemma {:induction false} RunTemperatureBound(s: DeviceState, q: seq<Command>, xs: seq<Sample>)
    requires |xs| >= |q| && AllInRange(xs)
    decreases |q|
    ensures var r := RunQueue(s, q, xs);
            var k := TemperatureReadings(q[..|r.responses|]) as real;
            s.temperature - 0.5 * k <= r.state.temperature <= s.temperature + 0.5 * k
  {
    if q != [] {
      match Handle(s, q[0], xs[0])
      case Failure(_) =>
      case Success(h) =>
        assert InRange(xs[0]);
        assert AllInRange(xs[1..]) by {
          forall i | 0 <= i < |xs[1..]| ensures InRange(xs[1..][i]) {
            assert xs[1..][i] == xs[i + 1];
          }
        }
        RunTemperatureBound(h.state, q[1..], xs[1..]);
        var n := |RunQueue(h.state, q[1..], xs[1..]).responses|;
        PrefixOfTail(q, n);
        assert q[..n + 1][1..] == q[1..][..n];
    }
  }

  /** What the responder side publishes for the responses `rs`: their
      announcements when the pong client exists, nothing otherwise. */
  function Broadcast(on: bool, rs: seq<Response>): (ms: seq<Message>)
    ensures |ms| == if on then |rs| else 0
  {
    if on then Announcements(rs) else []
  }

  /** Publishing one more response extends what was published by it. */
  lemma BroadcastSnoc(out: seq<Message>, on: bool, rs: seq<Response>, r: Response)
    ensures out + Broadcast(on, rs + [r]) == (out + Broadcast(on, rs)) + Broadcast(on, [r])
  {
    AnnouncementsSnoc(rs, r);
    AnnouncementsSnoc([], r);
    assert [] + [r] == [r];
  }

  /** Nothing published yet. */
  lemma BroadcastNone(out: seq<Message>, on: bool)
    ensures out + Broadcast(on, []) == out
  {
    assert Broadcast(on, []) == [];
  }

  /** The globals of app-pingpong.py. */
  class PingPong {
    const device: Device
    var ping: Link
    var pongClient: bool
    var responseQueue: seq<Response>
    var commandQueue: seq<Command>
    ghost var outbox: seq<Message>

    constructor ()
      ensures fresh(device) && device.State() == Initial
      ensures ping == Offline && !pongClient
      ensures responseQueue == [] && commandQueue == [] && outbox == []
    {
      device := new Device();
      ping := Offline;
      pongClient := false;
      responseQueue := [];
      commandQueue := [];
      outbox := [];
    }

    /** initialize_ping: a fresh session named after the current second. */
    method InitializePing(now: real) returns (status: string)
      modifies this
      ensures ping == Online(SessionIdAt(now)) && status == "Ping initialized: " + SessionIdAt(now)
      ensures pongClient == old(pongClient) && outbox == old(outbox)
      ensures responseQueue == old(responseQueue) && commandQueue == old(commandQueue)
    {
      var sid := SessionIdAt(now);
      ping := Online(sid);
      status := "Ping initialized: " + sid;
    }

    /** initialize_pong. */
    method InitializePong() returns (status: string)
      modifies this
      ensures pongClient && status == "Pong started"
      ensures ping == old(ping) && outbox == old(outbox)
      ensures responseQueue == old(responseQueue) && commandQueue == old(commandQueue)
    {
      pongClient := true;
      status := "Pong started";
    }

    /** The ping client's delivery hand-off: a decoded response is queued. */
    method ReceiveResponse(r: Response)
      modifies this
      ensures responseQueue == old(responseQueue) + [r]
      ensures ping == old(ping) && pongClient == old(pongClient)
      ensures commandQueue == old(commandQueue) && outbox == old(outbox)
    {
      responseQueue := responseQueue + [r];
    }

    /** The pong client's delivery hand-off: a decoded command is queued. */
    method ReceiveCommand(c: Command)
      modifies this
      ensures commandQueue == old(commandQueue) + [c]
      ensures ping == old(ping) && pongClient == old(pongClient)
      ensures responseQueue == old(responseQueue) && outbox == old(outbox)
    {
      commandQueue := commandQueue + [c];
    }

    /** send_command: refused without a ping client; otherwise the command,
        stamped with the current session, goes out on the command topic. */
    method SendCommand(kind: string, data: Option<map<string, Value>>, now: real) returns (status: Status)
      modifies this
      ensures old(ping).Offline? ==> status == Refused(PingNotReady) && outbox == old(outbox)
      ensures old(ping).Online? ==>
                && status == Sent(kind)
                && outbox == old(outbox) +
                   [Message(CommandTopic, CommandBody(NewCommand(kind, data, old(ping).sessionId, now)))]
      ensures ping == old(ping) && pongClient == old(pongClient)
      ensures responseQueue == old(responseQueue) && commandQueue == old(commandQueue)
    {
      if ping.Offline? {
        return Refused(PingNotReady);
      }
      var c := NewCommand(kind, data, ping.sessionId, now);
      outbox := outbox + [Message(CommandTopic, CommandBody(c))];
      status := Sent(kind);
    }

    /** send_rgb: like send_command, and the very same command is also put
        on the local command queue. */
    method SendRgb(r: Value, g: Value, b: Value, now: real) returns (status: Status)
      modifies this
      ensures old(ping).Offline? ==>
                && status == Refused(PingNotReady)
                && outbox == old(outbox) && commandQueue == old(commandQueue)
      ensures old(ping).Online? ==>
                var c := Command(RgbCommand, Some(RgbData(r, g, b)), old(ping).sessionId, now);
                && status == Sent(RgbCommand)
                && outbox == old(outbox) + [Message(CommandTopic, CommandBody(c))]
                && commandQueue == old(commandQueue) + [c]
      ensures ping == old(ping) && pongClient == old(pongClient) && responseQueue == old(responseQueue)
    {
      if ping.Offline? {
        return Refused(PingNotReady);
      }
      var c := Command(RgbCommand, Some(RgbData(r, g, b)), ping.sessionId, now);
      outbox := outbox + [Message(CommandTopic, CommandBody(c))];
      commandQueue := commandQueue + [c];
      status := Sent(RgbCommand);
    }

    /** send_weight_request. */
    method SendWeightRequest(rpm: Value, now: real) returns (status: Status)
      modifies this
      ensures old(ping).Offline? ==> status == Refused(PingNotReady) && outbox == old(outbox)
      ensures old(ping).Online? ==>
                && status == Sent(WeightData)
                && outbox == old(outbox) +
                   [Message(CommandTopic, CommandBody(Command(WeightData, Some(WeightRequestData(rpm)), old(ping).sessionId, now)))]
      ensures ping == old(ping) && pongClient == old(pongClient)
      ensures responseQueue == old(responseQueue) && commandQueue == old(commandQueue)
    {
      status := SendCommand(WeightData, Some(WeightRequestData(rpm)), now);
    }

    /** process_command: runs the dispatcher on the device and, when the
        pong client exists, publishes the response on the command's session
        topic. A raising RGB command changes and publishes nothing. */
    method ProcessCommand(c: Command, x: Sample) returns (out: Result<Response, Fault>)
      modifies this, device
      ensures out.Failure? <==> Handle(old(device.State()), c, x).Failure?
      ensures out.Failure? ==>
                && Handle(old(device.State()), c, x) == Failure(out.error)
                && device.State() == old(device.State())
      ensures out.Success? ==>
                Handle(old(device.State()), c, x) == Success(Step(device.State(), out.value))
      ensures outbox == old(outbox) + (if pongClient && out.Success? then [Announce(out.value)] else [])
      ensures ping == old(ping) && pongClient == old(pongClient)
      ensures responseQueue == old(responseQueue) && commandQueue == old(commandQueue)
    {
      var resp: Response;
      if c.kind == RgbCommand {
        // the three int(...) calls run before the record is rebound
        var coerced := CoerceRgb(Payload(c));
        if coerced.Failure? {
          return Failure(coerced.error);
        }
        device.SetRgb(coerced.value);
        resp := Response(c.kind, RgbReport(device.rgb, x), x.now, c.sessionId);
      } else {
        resp := device.ApplyOther(c, x);
      }
      if pongClient {
        outbox := outbox + [Announce(resp)];
      }
      out := Success(resp);
    }

    /** check_ping_responses: empties the response queue, oldest first. */
    method CheckPingResponses() returns (report: Report<Response>)
      modifies this
      ensures responseQueue == [] && report == ListOrNotice(old(responseQueue), NoResponses)
      ensures ping == old(ping) && pongClient == old(pongClient)
      ensures commandQueue == old(commandQueue) && outbox == old(outbox)
    {
      var responses: seq<Response> := [];
      while responseQueue != []
        invariant responses + responseQueue == old(responseQueue)
        invariant ping == old(ping) && pongClient == old(pongClient)
        invariant commandQueue == old(commandQueue) && outbox == old(outbox)
        decreases |responseQueue|
      {
        assert responses + responseQueue == (responses + [responseQueue[0]]) + responseQueue[1..];
        responses := responses + [responseQueue[0]];
        responseQueue := responseQueue[1..];
      }
      report := ListOrNotice(responses, NoResponses);
    }

    /** check_pong_commands: processes the queued commands front to back
        until one raises; the exception then leaves the remaining commands
        queued. */
    method CheckPongCommands(xs: seq<Sample>) returns (out: Result<Report<Response>, Fault>)
      requires |xs| >= |commandQueue|
      modifies this, device
      ensures var run := RunQueue(old(device.State()), old(commandQueue), xs);
              && device.State() == run.state
              && commandQueue == run.rest
              && outbox == old(outbox) + Broadcast(pongClient, run.responses)
              && out == if run.fault.None? then Success(ListOrNotice(run.responses, NoCommands))
                        else Failure(run.fault.value)
      ensures ping == old(ping) && pongClient == old(pongClient) && responseQueue == old(responseQueue)
    {
      var run := DrainCommands(xs);
      if run.fault.Some? {
        return Failure(run.fault.value);
      }
      out := Success(ListOrNotice(run.responses, NoCommands));
    }

    /** The loop of check_pong_commands: pop, process (which publishes),
        collect; an exception ends it. */
    method DrainCommands(xs: seq<Sample>) returns (run: Run)
      requires |xs| >= |commandQueue|
      modifies this, device
      ensures run == RunQueue(old(device.State()), old(commandQueue), xs)
      ensures device.State() == run.state && commandQueue == run.rest
      ensures outbox == old(outbox) + Broadcast(pongClient, run.responses)
      ensures ping == old(ping) && pongClient == old(pongClient) && responseQueue == old(responseQueue)
    {
      ghost var s0 := device.State();
      ghost var q0 := commandQueue;
      ghost var out0 := outbox;
      var responses: seq<Response> := [];
      var i := 0;
      BroadcastNone(out0, pongClient);
      while commandQueue != []
        invariant 0 <= i <= |q0| && commandQueue == q0[i..]
        invariant Continues(RunQueue(s0, q0, xs), responses, RunQueue(device.State(), commandQueue, xs[i..]))
        invariant outbox == out0 + Broadcast(pongClient, responses)
        invariant ping == old(ping) && pongClient == old(pongClient) && responseQueue == old(responseQueue)
        decreases |commandQueue|
      {
        var r := ProcessNext(s0, q0, xs, i, responses);
        if r.Failure? {
          return Run(device.State(), responses, commandQueue, Some(r.error));
        }
        BroadcastSnoc(out0, pongClient, responses, r.value);
        responses := responses + [r.value];
        i := i + 1;
      }
      run := Run(device.State(), responses, [], None);
    }

    /** One turn of that loop: the front command leaves the queue and is
        processed; what the run has left to do shrinks accordingly, or the
        exception ends the run right here. */
    method ProcessNext(ghost s0: DeviceState, ghost q0: seq<Command>, xs: seq<Sample>, i: nat,
                       ghost done: seq<Response>) returns (r: Result<Response, Fault>)
      requires |xs| >= |q0| && i < |q0| && commandQueue == q0[i..]
      requires Continues(RunQueue(s0, q0, xs), done, RunQueue(device.State(), commandQueue, xs[i..]))
      modifies this, device
      ensures commandQueue == q0[i + 1..]
      ensures r.Failure? ==> RunQueue(s0, q0, xs) == Run(device.State(), done, commandQueue, Some(r.error))
      ensures r.Success? ==>
                Continues(RunQueue(s0, q0, xs), done + [r.value], RunQueue(device.State(), commandQueue, xs[i + 1..]))
      ensures r.Failure? ==> outbox == old(outbox)
      ensures r.Success? ==> outbox == old(outbox) + Broadcast(pongClient, [r.value])
      ensures ping == old(ping) && pongClient == old(pongClient) && responseQueue == old(responseQueue)
    {
      ghost var cur := device.State();
      var c := commandQueue[0];
      commandQueue := commandQueue[1..];
      r := ProcessCommand(c, xs[i]);
      if r.Failure? {
        RunAdvanceFailure(s0, q0, xs, i, cur, done, r.error);
      } else {
        RunAdvanceSuccess(s0, q0, xs, i, cur, done, Step(device.State(), r.value));
      }
    }

    /** update_rgb_preview: only the colour changes, to the truncated
        slider values. */
    method UpdateRgbPreview(r: real, g: real, b: real) returns (shown: DeviceState)
      modifies device
      ensures device.State() == old(device.State()).(rgb := RgbData(Int(Trunc(r)), Int(Trunc(g)), Int(Trunc(b))))
      ensures shown == device.State()
    {
      device.SetRgb(RgbData(Int(Trunc(r)), Int(Trunc(g)), Int(Trunc(b))));
      shown := device.State();
    }

    /** update_rpm_preview: only the rpm changes, to the truncated slider
        value. */
    method UpdateRpmPreview(rpm: real) returns (shown: DeviceState)
      modifies device
      ensures device.State() == old(device.State()).(rpm := Int(Trunc(rpm)))
      ensures shown == device.State()
    {
      device.SetRpm(Int(Trunc(rpm)));
      shown := device.State();
    }

    /** update_temperature_preview: only the temperature changes. */
    method UpdateTemperaturePreview(temperature: real) returns (shown: DeviceState)
      modifies device
      ensures device.State() == old(device.State()).(temperature := temperature)
      ensures shown == device.State()
    {
      device.SetTemperature(temperature);
      shown := device.State();
    }
  }
}
