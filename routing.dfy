/** Laws that tie the commander to the responders: where answers travel,
    and what an RGB command sent by a commander comes back as. */
module Routing {
  import opened Protocol
  import opened Simulation
  import Pong
  import PingPong

  /** Both responders answer a command on the response topic of the
      command's own session: that topic names the session, and it is not the
      topic of any other session. */
  lemma AnswersRouteToTheirSession(s: DeviceState, c: Command, x: Sample, other: string)
    ensures var m := Announce(Pong.Handle(s, c, x).response);
            && m.topic == ResponseTopic(c.sessionId)
            && TopicSession(m.topic) == Some(c.sessionId)
            && (other != c.sessionId ==> m.topic != ResponseTopic(other))
    ensures var h := PingPong.Handle(s, c, x);
            h.Success? ==>
              var m := Announce(h.value.response);
              && m.topic == ResponseTopic(c.sessionId)
              && TopicSession(m.topic) == Some(c.sessionId)
              && (other != c.sessionId ==> m.topic != ResponseTopic(other))
  {
    ResponseTopicsSeparate(c.sessionId, other);
  }

  /** An RGB command with integer channels, as a commander of session `sid`
      sends it, is applied by either responder exactly as sent and answered
      on that session's topic with the same values as `applied_values`. */
  lemma RgbEndToEnd(s: DeviceState, x: Sample, sid: string, now: real, r: int, g: int, b: int)
    ensures var c := NewCommand(RgbCommand, Some(RgbData(Int(r), Int(g), Int(b))), sid, now);
            var h := Pong.Handle(s, c, x);
            && h.state.rgb == RgbData(Int(r), Int(g), Int(b))
            && h.response.data["applied_values"] == Obj(RgbData(Int(r), Int(g), Int(b)))
            && Announce(h.response).topic == ResponseTopic(sid)
    ensures var c := NewCommand(RgbCommand, Some(RgbData(Int(r), Int(g), Int(b))), sid, now);
            var h := PingPong.Handle(s, c, x);
            && h.Success?
            && h.value.state.rgb == RgbData(Int(r), Int(g), Int(b))
            && h.value.response.data["applied_values"] == Obj(RgbData(Int(r), Int(g), Int(b)))
            && Announce(h.value.response).topic == ResponseTopic(sid)
  {
    PingPong.CoerceRgbIntegers(r, g, b);
  }
}
