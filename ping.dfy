/** app-ping.py: the standalone commander. It takes a session named after
    the second it initialized in, publishes commands stamped with that
    session on the shared command topic, listens on its session's response
    topic, and on each poll drains the responses delivered so far. */
module Ping {
  import opened Protocol

  const SessionNotReady := "Please initialize session first"
  const NoResponses := "No new responses"

  /** The globals of app-ping.py. */
  class Commander {
    var link: Link
    var responseQueue: seq<Response>
    ghost var outbox: seq<Message>

    constructor ()
      ensures link == Offline && responseQueue == [] && outbox == []
    {
      link := Offline;
      responseQueue := [];
      outbox := [];
    }

    /** The topic on_connect subscribes to: the response topic of the
        current session, which names that session and no other. */
    function Subscription(): (topic: Option<string>)
      reads this
      ensures topic.Some? <==> link.Online?
      ensures topic.Some? ==> TopicSession(topic.value) == Some(link.sessionId)
    {
      if link.Online? then
        Some(ResponseTopic(link.sessionId))
      else
        None
    }

    /** initialize_session: a fresh session named after the current second. */
    method InitializeSession(now: real) returns (status: string)
      modifies this
      ensures link == Online(SessionIdAt(now))
      ensures status == "Connected with session: " + SessionIdAt(now)
      ensures responseQueue == old(responseQueue) && outbox == old(outbox)
    {
      var sid := SessionIdAt(now);
      link := Online(sid);
      status := "Connected with session: " + sid;
    }

    /** The delivery callback's hand-off: a decoded response is queued. */
    method Receive(r: Response)
      modifies this
      ensures responseQueue == old(responseQueue) + [r]
      ensures link == old(link) && outbox == old(outbox)
    {
      responseQueue := responseQueue + [r];
    }

    /** send_command: refused without a client; otherwise the command,
        stamped with the current session, goes out on the command topic and
        nowhere else. */
    method SendCommand(kind: string, data: Option<map<string, Value>>, now: real) returns (status: Status)
      modifies this
      ensures old(link).Offline? ==> status == Refused(SessionNotReady) && outbox == old(outbox)
      ensures old(link).Online? ==>
                && status == Sent(kind)
                && outbox == old(outbox) +
                   [Message(CommandTopic, CommandBody(NewCommand(kind, data, old(link).sessionId, now)))]
      ensures link == old(link) && responseQueue == old(responseQueue)
    {
      if link.Offline? {
        return Refused(SessionNotReady);
      }
      var c := NewCommand(kind, data, link.sessionId, now);
      outbox := outbox + [Message(CommandTopic, CommandBody(c))];
      status := Sent(kind);
    }

    /** send_rgb: an "RGB Command" whose data is exactly the three values. */
    method SendRgb(r: Value, g: Value, b: Value, now: real) returns (status: Status)
      modifies this
      ensures old(link).Offline? ==> status == Refused(SessionNotReady) && outbox == old(outbox)
      ensures old(link).Online? ==>
                && status == Sent(RgbCommand)
                && outbox == old(outbox) +
                   [Message(CommandTopic, CommandBody(Command(RgbCommand, Some(RgbData(r, g, b)), old(link).sessionId, now)))]
      ensures link == old(link) && responseQueue == old(responseQueue)
    {
      status := SendCommand(RgbCommand, Some(RgbData(r, g, b)), now);
    }

    /** send_weight_request: a "Weight Data" command asking for `rpm`. */
    method SendWeightRequest(rpm: Value, now: real) returns (status: Status)
      modifies this
      ensures old(link).Offline? ==> status == Refused(SessionNotReady) && outbox == old(outbox)
      ensures old(link).Online? ==>
                && status == Sent(WeightData)
                && outbox == old(outbox) +
                   [Message(CommandTopic, CommandBody(Command(WeightData, Some(WeightRequestData(rpm)), old(link).sessionId, now)))]
      ensures link == old(link) && responseQueue == old(responseQueue)
    {
      status := SendCommand(WeightData, Some(WeightRequestData(rpm)), now);
    }

    /** check_responses: empties the response queue, oldest first. */
    method CheckResponses() returns (report: Report<Response>)
      modifies this
      ensures responseQueue == [] && report == ListOrNotice(old(responseQueue), NoResponses)
      ensures link == old(link) && outbox == old(outbox)
    {
      var responses: seq<Response> := [];
      while responseQueue != []
        invariant responses + responseQueue == old(responseQueue)
        invariant link == old(link) && outbox == old(outbox)
        decreases |responseQueue|
      {
        assert responses + responseQueue == (responses + [responseQueue[0]]) + responseQueue[1..];
        responses := responses + [responseQueue[0]];
        responseQueue := responseQueue[1..];
      }
      report := ListOrNotice(responses, NoResponses);
    }
  }
}
