/** The wire vocabulary shared by the commander ("ping") and the responders
    ("pong"): JSON values, command and response records, the two topic
    shapes, session identifiers, and Python's `int(...)` as the responders
    apply it to decoded values. */
module Protocol {

  datatype Option<T> = None | Some(value: T)

  datatype Result<T, E> = Success(value: T) | Failure(error: E)

  /** A value as `json.loads` decodes it. */
  datatype Value =
    | Null
    | Bool(flag: bool)
    | Int(num: int)
    | Real(re: real)
    | Str(text: string)
    | Arr(items: seq<Value>)
    | Obj(fields: map<string, Value>)

  /** The exception Python's `int(...)` raises on a value it cannot convert. */
  datatype Fault = TypeError | ValueError

  /** `dict.get(key, default)`. */
  function GetOr(m: map<string, Value>, key: string, default: Value): (v: Value)
    ensures key in m ==> v == m[key]
    ensures key !in m ==> v == default
  {
    if key in m then m[key] else default
  }

  // ---------------------------------------------------------------------
  // Sequence facts the queue proofs share

  /** The first n + 1 elements are the head followed by the tail's first n. */
  lemma PrefixOfTail<T>(q: seq<T>, n: nat)
    requires n < |q|
    ensures q[..n + 1] == [q[0]] + q[1..][..n]
  {
    assert forall k :: 0 <= k < n + 1 ==> q[..n + 1][k] == ([q[0]] + q[1..][..n])[k];
  }

  /** Dropping the head of a non-empty prefix is a prefix of the tail. */
  lemma TailOfPrefix<T>(q: seq<T>, i: nat)
    requires 0 < i <= |q|
    ensures q[..i][0] == q[0] && q[..i][1..] == q[1..][..i - 1]
  {
    assert forall k :: 0 <= k < i - 1 ==> q[..i][1..][k] == q[1..][..i - 1][k];
  }

  // ---------------------------------------------------------------------
  // Python's int(...)

  /** `int(x)` on a float: truncation toward zero. */
  function Trunc(x: real): (n: int)
    ensures 0.0 <= x ==> n as real <= x < n as real + 1.0
    ensures x < 0.0 ==> n as real - 1.0 < x <= n as real
  {
    if x >= 0.0 then x.Floor else -((-x).Floor)
  }

  predicate IsDigit(c: char) {
    '0' <= c <= '9'
  }

  predicate AllDigits(s: string) {
    forall i :: 0 <= i < |s| ==> IsDigit(s[i])
  }

  function DigitChar(d: nat): (c: char)
    requires d < 10
    ensures IsDigit(c) && c as int - '0' as int == d
  {
    ('0' as int + d) as char
  }

  /** `str(n)` for a non-negative integer: its decimal digits, most
      significant first, without leading zeros. */
  function NatToDecimal(n: nat): (s: string)
    ensures |s| > 0 && AllDigits(s)
    ensures n < 10 <==> |s| == 1
    ensures s[0] == '0' ==> n == 0
  {
    if n < 10 then [DigitChar(n)] else NatToDecimal(n / 10) + [DigitChar(n % 10)]
  }

  /** The number a string of decimal digits denotes. */
  function DecimalValue(s: string): nat
    requires AllDigits(s)
  {
    if s == [] then 0 else 10 * DecimalValue(s[..|s| - 1]) + (s[|s| - 1] as int - '0' as int)
  }

  /** `str(i)` for any integer: a minus sign exactly for a negative number,
      then its digits, with a leading zero only for 0 itself. */
  function IntToDecimal(i: int): (s: string)
    ensures |s| > 0 && (s[0] == '-' <==> i < 0)
    ensures i < 0 ==> |s| > 1 && AllDigits(s[1..]) && s[1] != '0'
    ensures 0 <= i ==> AllDigits(s) && (s[0] == '0' <==> i == 0)
  {
    if i < 0 then
      var digits := NatToDecimal(-i);
      assert ("-" + digits)[1..] == digits;
      "-" + digits
    else
      NatToDecimal(i)
  }

  /** `int(s)` on a string: an optional sign followed by one or more decimal
      digits; anything else raises. */
  function ParseInt(s: string): (r: Option<int>)
    ensures r.Some? ==> |s| > 0 && (r.value < 0 ==> s[0] == '-')
    ensures |s| > 0 && AllDigits(s) ==> r == Some(DecimalValue(s))
  {
    if |s| > 1 && (s[0] == '-' || s[0] == '+') && AllDigits(s[1..]) then
      Some(if s[0] == '-' then -(DecimalValue(s[1..]) as int) else DecimalValue(s[1..]))
    else if |s| > 0 && AllDigits(s) then
      Some(DecimalValue(s))
    else
      None
  }

  /** `int(v)` for a decoded JSON value: booleans are 0 and 1, floats are
      truncated, strings are parsed; null, lists and objects raise a
      TypeError and unparsable strings a ValueError. */
  function PyInt(v: Value): (r: Result<int, Fault>)
    ensures r.Failure? <==> v.Null? || v.Arr? || v.Obj? || (v.Str? && ParseInt(v.text).None?)
    ensures r.Failure? ==> (r.error == ValueError <==> v.Str?)
    ensures v.Real? ==> r == Success(Trunc(v.re))
  {
    match v
    case Null => Failure(TypeError)
    case Bool(b) => Success(if b then 1 else 0)
    case Int(n) => Success(n)
    case Real(x) => Success(Trunc(x))
    case Str(s) => (match ParseInt(s) case Some(n) => Success(n) case None => Failure(ValueError))
    case Arr(_) => Failure(TypeError)
    case Obj(_) => Failure(TypeError)
  }

  lemma {:induction false} DecimalRoundTrip(n: nat)
    ensures DecimalValue(NatToDecimal(n)) == n
  {
    if n >= 10 {
      DecimalRoundTrip(n / 10);
      var s := NatToDecimal(n);
      assert s[..|s| - 1] == NatToDecimal(n / 10);
    }
  }

  /** A bare run of digits parses as the number it denotes. */
  lemma ParseUnsigned(digits: string)
    requires |digits| > 0 && AllDigits(digits)
    ensures ParseInt(digits) == Some(DecimalValue(digits))
  {
    assert IsDigit(digits[0]);
  }

  /** A minus sign before a run of digits negates it. */
  lemma ParseNegative(digits: string)
    requires |digits| > 0 && AllDigits(digits)
    ensures ParseInt("-" + digits) == Some(-(DecimalValue(digits) as int))
  {
    var t := "-" + digits;
    assert t[0] == '-' && t[1..] == digits;
  }

  /** Parsing what `str` printed gives the integer back. */
  lemma IntDecimalRoundTrip(i: int)
    ensures ParseInt(IntToDecimal(i)) == Some(i)
  {
    if i < 0 {
      DecimalRoundTrip(-i);
      ParseNegative(NatToDecimal(-i));
    } else {
      DecimalRoundTrip(i);
      ParseUnsigned(NatToDecimal(i));
    }
  }

  /** `int(...)` is the identity on every way an integer can arrive:
      as a JSON integer, as a float with no fraction, or as its decimal text. */
  lemma PyIntOfInteger(i: int)
    ensures PyInt(Int(i)) == Success(i)
    ensures PyInt(Real(i as real)) == Success(i)
    ensures PyInt(Str(IntToDecimal(i))) == Success(i)
  {
    TruncOfInteger(i);
    IntDecimalRoundTrip(i);
  }

  /** A float with no fraction truncates to the integer it holds. */
  lemma TruncOfInteger(i: int)
    ensures Trunc(i as real) == i
  {
    if i < 0 {
      assert -(i as real) == (-i) as real;
      assert ((-i) as real).Floor == -i;
    } else {
      assert (i as real).Floor == i;
    }
  }

  // ---------------------------------------------------------------------
  // Sessions and topics

  const SessionPrefix := "ping_"

  /** `f"ping_{int(time.time())}"`: the session identifier a commander
      takes when it initializes at wall-clock time `now`. */
  function SessionIdAt(now: real): (sid: string)
    ensures |sid| > |SessionPrefix| && sid[..|SessionPrefix|] == SessionPrefix
    ensures ParseInt(sid[|SessionPrefix|..]) == Some(Trunc(now))
  {
    var digits := IntToDecimal(Trunc(now));
    IntDecimalRoundTrip(Trunc(now));
    assert (SessionPrefix + digits)[|SessionPrefix|..] == digits;
    SessionPrefix + digits
  }

  /** The whole seconds a session identifier was created at, if it has the
      commander's shape. */
  function SessionSeconds(sid: string): Option<int> {
    if |sid| >= |SessionPrefix| && sid[..|SessionPrefix|] == SessionPrefix then
      ParseInt(sid[|SessionPrefix|..])
    else
      None
  }

  lemma SessionIdRoundTrip(now: real)
    ensures SessionSeconds(SessionIdAt(now)) == Some(Trunc(now))
  {
  }

  /** Commanders initialized in different seconds get different sessions
      (and commanders initialized within the same second share one). */
  lemma SessionIdsDistinct(a: real, b: real)
    ensures SessionIdAt(a) == SessionIdAt(b) <==> Trunc(a) == Trunc(b)
  {
    if SessionIdAt(a) == SessionIdAt(b) {
      SessionIdRoundTrip(a);
      SessionIdRoundTrip(b);
    }
  }

  /** The one topic every command is published on. */
  const CommandTopic := "ping/command"

  const ResponsePrefix := "pong/"
  const ResponseSuffix := "/response"

  /** `f"pong/{session_id}/response"`: the topic scoped to one session,
      which names that session and no other. */
  function ResponseTopic(sid: string): (t: string)
    ensures TopicSession(t) == Some(sid)
  {
    var t := ResponsePrefix + sid + ResponseSuffix;
    var n := |t|;
    assert t[..|ResponsePrefix|] == ResponsePrefix;
    assert t[n - |ResponseSuffix|..] == ResponseSuffix;
    assert t[|ResponsePrefix|..n - |ResponseSuffix|] == sid;
    t
  }

  /** The session a response topic is scoped to, if it is one. */
  function TopicSession(topic: string): Option<string> {
    var n := |topic|;
    if n >= |ResponsePrefix| + |ResponseSuffix|
       && topic[..|ResponsePrefix|] == ResponsePrefix
       && topic[n - |ResponseSuffix|..] == ResponseSuffix
    then Some(topic[|ResponsePrefix|..n - |ResponseSuffix|])
    else None
  }

  /** Each session has its own response topic, and none of them is the
      command topic. */
  lemma ResponseTopicsSeparate(a: string, b: string)
    ensures ResponseTopic(a) == ResponseTopic(b) <==> a == b
    ensures ResponseTopic(a) != CommandTopic
  {
    assert |ResponseTopic(a)| > |CommandTopic|;
  }

  // ---------------------------------------------------------------------
  // Commands, responses, published messages

  const RgbCommand := "RGB Command"
  const TemperatureReading := "Temperature Reading"
  const WeightData := "Weight Data"

  /** A command as a responder decodes it. `data` is None when the key is
      absent from the payload. */
  datatype Command = Command(kind: string, data: Option<map<string, Value>>, sessionId: string, timestamp: real)

  /** `data or {}` for the commander's optional `data` argument: a missing
      argument sends the empty object. */
  function OrEmpty(data: Option<map<string, Value>>): map<string, Value> {
    match data
    case Some(m) => m
    case None => map[]
  }

  /** `command.get("data", {})`: an absent key reads as the empty object,
      which is what `data or {}` gives for a missing argument, so the
      responders reuse it. */
  function Payload(c: Command): (d: map<string, Value>)
    ensures c.data.None? ==> d == map[]
    ensures c.data.Some? ==> d == c.data.value
  {
    OrEmpty(c.data)
  }

  /** The payload a commander publishes: the type, the data (never
      missing), the commander's session and the wall-clock time. */
  function NewCommand(kind: string, data: Option<map<string, Value>>, sid: string, now: real): (c: Command)
    ensures c.data.Some? && Payload(c) == OrEmpty(data)
    ensures c.kind == kind && c.sessionId == sid && c.timestamp == now
  {
    Command(kind, Some(OrEmpty(data)), sid, now)
  }

  /** `{"r": r, "g": g, "b": b}`. */
  function RgbData(r: Value, g: Value, b: Value): map<string, Value> {
    map["r" := r, "g" := g, "b" := b]
  }

  /** `{"set_rpm": rpm, "request_weight": True}`. */
  function WeightRequestData(rpm: Value): map<string, Value> {
    map["set_rpm" := rpm, "request_weight" := Bool(true)]
  }

  datatype Response = Response(kind: string, data: map<string, Value>, timestamp: real, sessionId: string)

  datatype Body = CommandBody(command: Command) | ResponseBody(response: Response)

  /** One `publish(topic, payload)`. */
  datatype Message = Message(topic: string, body: Body)

  /** The publication of a response, on the topic of the session it names. */
  function Announce(r: Response): (m: Message)
    ensures TopicSession(m.topic) == Some(r.sessionId) && m.body == ResponseBody(r)
  {
    Message(ResponseTopic(r.sessionId), ResponseBody(r))
  }

  /** The publications of a list of responses, in order. */
  function Announcements(rs: seq<Response>): (ms: seq<Message>)
    ensures |ms| == |rs|
    ensures forall i :: 0 <= i < |rs| ==> ms[i] == Announce(rs[i])
  {
    if rs == [] then [] else Announcements(rs[..|rs| - 1]) + [Announce(rs[|rs| - 1])]
  }

  lemma AnnouncementsSnoc(rs: seq<Response>, r: Response)
    ensures Announcements(rs + [r]) == Announcements(rs) + [Announce(r)]
  {
    assert (rs + [r])[..|rs|] == rs;
  }

  /** What the polling functions hand back: a fixed notice when nothing was
      waiting, otherwise the entries in the order they were taken. */
  datatype Report<T> = Notice(text: string) | Entries(items: seq<T>)

  function ListOrNotice<T>(items: seq<T>, notice: string): (r: Report<T>)
    ensures r.Notice? <==> items == []
    ensures r.Notice? ==> r.text == notice
    ensures r.Entries? ==> r.items == items
  {
    if items == [] then Notice(notice) else Entries(items)
  }

  /** What a send returns: a refusal message, or `f"Sent {kind}"`. */
  datatype Status = Refused(message: string) | Sent(kind: string)

  /** A commander's client together with the session it was created with:
      both globals are assigned by the same initialization and by nothing
      else. */
  datatype Link = Offline | Online(sessionId: string)

  /** The pseudo-random draws and the clock reading one command consumes. */
  datatype Sample = Sample(power: real, delta: real, humidity: real, pressure: real,
                           weight: real, stability: real, now: real)

  /** The ranges of the `random.uniform` calls. */
  predicate InRange(x: Sample) {
    && 0.1 <= x.power <= 1.0
    && -0.5 <= x.delta <= 0.5
    && 40.0 <= x.humidity <= 60.0
    && 980.0 <= x.pressure <= 1020.0
    && 95.0 <= x.weight <= 105.0
    && 0.98 <= x.stability <= 1.02
  }
}
