/** app-pong.py: the standalone responder. It queues the commands its
    client receives, and on each poll drains the queue, runs the dispatcher
    on every command and publishes every response on the session topic of
    the command. */
module Pong {
  import opened Protocol
  import opened Simulation

  const NotStarted := "MQTT client not started"
  const NoCommands := "No new commands"

  /** The dispatcher. Its RGB branch stores the command's data verbatim as
      the device colour; the other branches are the shared ones. */
  function Handle(s: DeviceState, c: Command, x: Sample): (r: Step)
    ensures r.response.kind == c.kind && r.response.sessionId == c.sessionId
    ensures r.response.timestamp == x.now
    ensures c.kind == RgbCommand ==>
              && r.state == s.(rgb := Payload(c))
              && "applied_values" in r.response.data
              && r.response.data["applied_values"] == Obj(r.state.rgb)
    ensures c.kind != RgbCommand ==> r == OtherStep(s, c, x)
  {
    if c.kind == RgbCommand then
      var rgb := Payload(c);
      Step(s.(rgb := rgb), Response(c.kind, RgbReport(rgb, x), x.now, c.sessionId))
    else
      OtherStep(s, c, x)
  }

  /** The result of handling a queue of commands in order. */
  datatype Drained = Drained(state: DeviceState, responses: seq<Response>)

  /** Handles `q` front to back from state `s`, the i-th command drawing
      from `xs[i]`: one response per command. */
  function Drain(s: DeviceState, q: seq<Command>, xs: seq<Sample>): (r: Drained)
    requires |xs| >= |q|
    ensures |r.responses| == |q|
    decreases |q|
  {
    if q == [] then Drained(s, [])
    else
      var h := Handle(s, q[0], xs[0]);
      var rest := Drain(h.state, q[1..], xs[1..]);
      Drained(rest.state, [h.response] + rest.responses)
  }

  /** One more command handled: what remains of a drain after the i-th
      command, in terms of what remained before it. */
  lemma DrainAdvance(s0: DeviceState, q0: seq<Command>, xs: seq<Sample>, i: nat,
                     cur: DeviceState, done: seq<Response>, h: Step)
    requires |xs| >= |q0| && i < |q0| && h == Handle(cur, q0[i], xs[i])
    requires Drain(s0, q0, xs).state == Drain(cur, q0[i..], xs[i..]).state
    requires Drain(s0, q0, xs).responses == done + Drain(cur, q0[i..], xs[i..]).responses
    ensures Drain(s0, q0, xs).state == Drain(h.state, q0[i + 1..], xs[i + 1..]).state
    ensures Drain(s0, q0, xs).responses == (done + [h.response]) + Drain(h.state, q0[i + 1..], xs[i + 1..]).responses
  {
    assert q0[i..][0] == q0[i] && q0[i..][1..] == q0[i + 1..];
    assert xs[i..][0] == xs[i] && xs[i..][1..] == xs[i + 1..];
  }

  /** The i-th response of a drain is what the dispatcher answers to the
      i-th command, from the device state the first i commands left. */
  lemma {:induction false} DrainStepwise(s: DeviceState, q: seq<Command>, xs: seq<Sample>, i: nat)
    requires |xs| >= |q| && i < |q|
    decreases |q|
    ensures Drain(s, q, xs).responses[i] == Handle(Drain(s, q[..i], xs).state, q[i], xs[i]).response
  {
    var h := Handle(s, q[0], xs[0]);
    if i == 0 {
      assert q[..0] == [];
    } else {
      DrainStepwise(h.state, q[1..], xs[1..], i - 1);
      TailOfPrefix(q, i);
    }
  }

  /** The responses of a drain come in queue order, each echoing its own
      command's type and session, and so each is published on the topic of
      its own command's session. */
  lemma DrainEchoes(s: DeviceState, q: seq<Command>, xs: seq<Sample>)
    requires |xs| >= |q|
    ensures forall i :: 0 <= i < |q| ==>
              && Drain(s, q, xs).responses[i].kind == q[i].kind
              && Drain(s, q, xs).responses[i].sessionId == q[i].sessionId
              && Announcements(Drain(s, q, xs).responses)[i].topic == ResponseTopic(q[i].sessionId)
  {
    forall i | 0 <= i < |q|
      ensures Drain(s, q, xs).responses[i].kind == q[i].kind
      ensures Drain(s, q, xs).responses[i].sessionId == q[i].sessionId
    {
      DrainStepwise(s, q, xs, i);
    }
  }

  /** Last write wins: after a drain the rpm is the `set_rpm` of the last
      Weight Data command that carried one, or what it was before. */
  lemma {:induction false} DrainRpm(s: DeviceState, q: seq<Command>, xs: seq<Sample>)
    requires |xs| >= |q|
    decreases |q|
    ensures Drain(s, q, xs).state.rpm == LastRpm(s.rpm, q)
  {
    if q != [] {
      var h := Handle(s, q[0], xs[0]);
      DrainRpm(h.state, q[1..], xs[1..]);
      LastRpmCons(s.rpm, q[0], q[1..]);
      assert [q[0]] + q[1..] == q;
      assert [q[0]][..0] == [];
    }
  }

  /** Each Weight Data response reports the rpm as the commands up to and
      including its own left it. */
  lemma WeightResponseReportsLatest(s: DeviceState, q: seq<Command>, xs: seq<Sample>, i: nat)
    requires |xs| >= |q| && i < |q| && q[i].kind == WeightData
    ensures "current_rpm" in Drain(s, q, xs).responses[i].data
    ensures Drain(s, q, xs).responses[i].data["current_rpm"] == LastRpm(s.rpm, q[..i + 1])
  {
    DrainStepwise(s, q, xs, i);
    DrainRpm(s, q[..i], xs);
    assert q[..i + 1][..i] == q[..i];
  }

  /** After a drain the temperature has moved by at most half a degree per
      Temperature Reading command. */
  lemma {:induction false} DrainTemperatureBound(s: DeviceState, q: seq<Command>, xs: seq<Sample>)
    requires |xs| >= |q| && AllInRange(xs)
    decreases |q|
    ensures var t := Drain(s, q, xs).state.temperature;
            var k := TemperatureReadings(q) as real;
            s.temperature - 0.5 * k <= t <= s.temperature + 0.5 * k
  {
    if q != [] {
      var h := Handle(s, q[0], xs[0]);
      assert InRange(xs[0]);
      assert AllInRange(xs[1..]) by {
        forall i | 0 <= i < |xs[1..]| ensures InRange(xs[1..][i]) {
          assert xs[1..][i] == xs[i + 1];
        }
      }
      DrainTemperatureBound(h.state, q[1..], xs[1..]);
    }
  }

  /** Publishing one more response extends the outbox by its announcement. */
  lemma PublishSnoc(out: seq<Message>, rs: seq<Response>, r: Response)
    ensures out + Announcements(rs + [r]) == (out + Announcements(rs)) + [Announce(r)]
  {
    AnnouncementsSnoc(rs, r);
  }

  /** Nothing published yet. */
  lemma PublishNone(out: seq<Message>)
    ensures out + Announcements([]) == out
  {
    assert Announcements([]) == [];
  }

  /** The responder process: its device, its command queue, whether its
      client was started, and everything it has published. */
  class Responder {
    const device: Device
    var commandQueue: seq<Command>
    var client: bool
    ghost var outbox: seq<Message>

    constructor ()
      ensures fresh(device) && device.State() == Initial
      ensures commandQueue == [] && !client && outbox == []
    {
      device := new Device();
      commandQueue := [];
      client := false;
      outbox := [];
    }

    /** start_mqtt: creates the client (the connection itself is not
        modelled). */
    method StartMqtt() returns (status: string)
      modifies this
      ensures client && status == "MQTT client started"
      ensures commandQueue == old(commandQueue) && outbox == old(outbox)
    {
      client := true;
      status := "MQTT client started";
    }

    /** The delivery callback's hand-off: a decoded command joins the queue. */
    method Receive(c: Command)
      modifies this
      ensures commandQueue == old(commandQueue) + [c]
      ensures client == old(client) && outbox == old(outbox)
    {
      commandQueue := commandQueue + [c];
    }

    /** process_command on the device record. */
    method ProcessCommand(c: Command, x: Sample) returns (resp: Response)
      modifies device
      ensures Step(device.State(), resp) == Handle(old(device.State()), c, x)
    {
      if c.kind == RgbCommand {
        device.SetRgb(Payload(c));
        resp := Response(c.kind, RgbReport(device.rgb, x), x.now, c.sessionId);
      } else {
        resp := device.ApplyOther(c, x);
      }
    }

    /** check_commands: without a client nothing happens; with one, the
        queue is emptied front to back and every response is published on
        its session's topic, in queue order. */
    method CheckCommands(xs: seq<Sample>) returns (report: Report<Response>)
      requires |xs| >= |commandQueue|
      modifies this, device
      ensures client == old(client)
      ensures !client ==>
                && report == Notice(NotStarted)
                && commandQueue == old(commandQueue)
                && device.State() == old(device.State())
                && outbox == old(outbox)
      ensures client ==>
                var d := Drain(old(device.State()), old(commandQueue), xs);
                && commandQueue == []
                && device.State() == d.state
                && outbox == old(outbox) + Announcements(d.responses)
                && report == ListOrNotice(d.responses, NoCommands)
    {
      if !client {
        return Notice(NotStarted);
      }
      var responses := DrainQueue(xs);
      report := ListOrNotice(responses, NoCommands);
    }

    /** The loop of check_commands: pop, process, publish, collect. */
    method DrainQueue(xs: seq<Sample>) returns (responses: seq<Response>)
      requires |xs| >= |commandQueue|
      modifies this, device
      ensures client == old(client)
      ensures var d := Drain(old(device.State()), old(commandQueue), xs);
              && commandQueue == []
              && device.State() == d.state
              && responses == d.responses
              && outbox == old(outbox) + Announcements(responses)
    {
      ghost var s0 := device.State();
      ghost var q0 := commandQueue;
      ghost var out0 := outbox;
      responses := [];
      var i := 0;
      PublishNone(out0);
      while commandQueue != []
        invariant 0 <= i <= |q0| && commandQueue == q0[i..]
        invariant Drain(s0, q0, xs).state == Drain(device.State(), commandQueue, xs[i..]).state
        invariant Drain(s0, q0, xs).responses == responses + Drain(device.State(), commandQueue, xs[i..]).responses
        invariant outbox == out0 + Announcements(responses)
        invariant client == old(client)
        decreases |commandQueue|
      {
        var c := commandQueue[0];
        ghost var cur := device.State();
        commandQueue := commandQueue[1..];
        var resp := ProcessCommand(c, xs[i]);
        DrainAdvance(s0, q0, xs, i, cur, responses, Step(device.State(), resp));
        outbox := outbox + [Announce(resp)];
        PublishSnoc(out0, responses, resp);
        responses := responses + [resp];
        i := i + 1;
      }
    }
  }
}
