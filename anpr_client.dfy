/** The client of the external ANPR service (internal/client/anpr_client.go): it asks for the
    camera events of one plate in a time window, retrying transport failures up to three times
    with a linear back-off, and interprets the response. The network is a parameter: the k-th
    exchange the client attempts yields `transport[k]`, and a transport error once the sequence
    is exhausted. */
module AnprClient {
  import opened Domain
  import PlateNormalizer

  /** One event as the service reports it. */
  datatype Event = Event(
    id: string,
    normalizedPlate: string,
    eventTime: Time,
    direction: Option<string>,
    snowVolume: Option<real>,
    cameraId: string,
    polygonId: Option<string>)

  /** The body of a response: it cannot be read, it is not the expected JSON, or it decodes to
      the `data` list of events. */
  datatype Body = Unreadable | Undecodable | Decoded(events: seq<Event>)
  {
    predicate Readable() { !Unreadable? }
  }

  /** What one HTTP exchange yields: a transport error, or a response with its status code. */
  datatype Attempt = TransportError | Delivered(status: int, body: Body)

  /** The query the client sends: plate, window, the direction only when one is given, and the
      internal token header only when one is configured. */
  datatype Request = Request(
    plate: string,
    startTime: Time,
    endTime: Time,
    direction: Option<string>,
    token: Option<string>)

  datatype AnprError =
    | NotConfigured
    | InvalidPlate
    | Unreachable
    | ReadFailed
    | BadStatus(code: int)
    | ParseFailed

  datatype Response = Events(events: seq<Event>) | Error(error: AnprError)

  /** Everything a call does: what it returns, the request it builds (none when it gives up
      before building one), how many exchanges it attempts and the pauses it makes between them,
      in milliseconds. */
  datatype Call = Call(response: Response, request: Option<Request>, attempts: nat, delays: seq<int>)

  /** The attempts of one retry loop from a given attempt on: how many, the response it stopped at,
      and the pauses. */
  datatype Tried = Tried(count: nat, delivered: Option<Attempt>, delays: seq<int>)

  const MaxRetries: nat := 3
  const StatusOK: int := 200

  /** The pause after failed attempt `attempt` (counted from zero). */
  function Backoff(attempt: nat): int
  {
    (attempt + 1) * 500
  }

  /** The outcome of the exchange numbered `k`. */
  function AttemptAt(transport: seq<Attempt>, k: nat): Attempt
  {
    if k < |transport| then transport[k] else TransportError
  }

  /** The retry loop from attempt `attempt` on: stop at the first delivered response; after a
      transport error pause and try again, unless this was the last attempt. */
  function Retry(transport: seq<Attempt>, attempt: nat): (t: Tried)
    requires attempt < MaxRetries
    ensures attempt < t.count <= MaxRetries
    decreases MaxRetries - attempt
  {
    var a := AttemptAt(transport, attempt);
    if a.Delivered? then Tried(attempt + 1, Some(a), [])
    else if attempt == MaxRetries - 1 then Tried(MaxRetries, None, [])
    else
      var rest := Retry(transport, attempt + 1);
      Tried(rest.count, rest.delivered, [Backoff(attempt)] + rest.delays)
  }

  /** A delivered response as the client reads it: the body is read first, then the status is
      checked, then the body is decoded. */
  function Interpret(a: Attempt): (r: Response)
    requires a.Delivered?
    ensures r.Events? <==> a.status == StatusOK && a.body.Decoded?
    ensures a.body.Unreadable? ==> r == Error(ReadFailed)
    ensures a.body.Readable() && a.status != StatusOK ==> r == Error(BadStatus(a.status))
    ensures r.Events? ==> r.events == a.body.events
  {
    if a.body.Unreadable? then Error(ReadFailed)
    else if a.status != StatusOK then Error(BadStatus(a.status))
    else if a.body.Undecodable? then Error(ParseFailed)
    else Events(a.body.events)
  }

  /** The request built for a normalised plate. */
  function BuildRequest(token: string, plate: string, startTime: Time, endTime: Time, direction: Option<string>): (q: Request)
    ensures q.direction.Some? <==> direction.Some? && direction.value != ""
    ensures q.direction.Some? ==> q.direction == direction
    ensures q.token.Some? <==> token != ""
    ensures q.token.Some? ==> q.token.value == token
    ensures q.plate == plate && q.startTime == startTime && q.endTime == endTime
  {
    Request(plate, startTime, endTime,
      if direction.Some? && direction.value != "" then direction else None,
      if token != "" then Some(token) else None)
  }

  /** GetEventsByPlateAndTime, as a function of the configuration, the arguments and the network. */
  function GetEvents(baseUrl: string, token: string, plate: string, startTime: Time, endTime: Time,
                     direction: Option<string>, transport: seq<Attempt>): (c: Call)
  {
    if baseUrl == "" then Call(Error(NotConfigured), None, 0, [])
    else
      var normalized := PlateNormalizer.NormalizePlate(plate);
      if normalized == "" then Call(Error(InvalidPlate), None, 0, [])
      else
        var q := BuildRequest(token, normalized, startTime, endTime, direction);
        var t := Retry(transport, 0);
        match t.delivered
        case None => Call(Error(Unreachable), Some(q), t.count, t.delays)
        case Some(a) => Call(Interpret(a), Some(q), t.count, t.delays)
  }

  /** GetEventsByPlateAndTime: the retry loop runs on the network's answers in order. */
  method GetEventsByPlateAndTime(baseUrl: string, token: string, plate: string, startTime: Time, endTime: Time,
                                 direction: Option<string>, transport: seq<Attempt>) returns (c: Call)
    ensures c == GetEvents(baseUrl, token, plate, startTime, endTime, direction, transport)
  {
    if baseUrl == "" {
      return Call(Error(NotConfigured), None, 0, []);
    }
    var normalized := PlateNormalizer.NormalizePlate(plate);
    if normalized == "" {
      return Call(Error(InvalidPlate), None, 0, []);
    }
    var q := BuildRequest(token, normalized, startTime, endTime, direction);
    var delivered: Option<Attempt> := None;
    var delays: seq<int> := [];
    var attempt: nat := 0;
    while attempt < MaxRetries
      invariant attempt <= MaxRetries
      invariant delivered.None? ==> attempt < MaxRetries
      invariant delivered.None? ==> (Retry(transport, 0) ==
        Tried(Retry(transport, attempt).count, Retry(transport, attempt).delivered, delays + Retry(transport, attempt).delays))
      invariant delivered.Some? ==> Retry(transport, 0) == Tried(attempt, delivered, delays)
      decreases MaxRetries - attempt, delivered.None?
    {
      var a := AttemptAt(transport, attempt);
      if a.Delivered? {
        delivered := Some(a);
        attempt := attempt + 1;
        break;
      }
      if attempt == MaxRetries - 1 {
        return Call(Error(Unreachable), Some(q), MaxRetries, delays);
      }
      delays := delays + [Backoff(attempt)];
      attempt := attempt + 1;
    }
    return Call(Interpret(delivered.value), Some(q), attempt, delays);
  }

  /** The loop attempts between one and three exchanges, and each failed one but the last is
      followed by a pause; the pauses grow by half a second. */
  lemma {:induction false} RetryBounds(transport: seq<Attempt>, attempt: nat)
    requires attempt < MaxRetries
    ensures attempt < Retry(transport, attempt).count <= MaxRetries
    ensures |Retry(transport, attempt).delays| == Retry(transport, attempt).count - attempt - 1
    ensures forall j :: 0 <= j < |Retry(transport, attempt).delays| ==> Retry(transport, attempt).delays[j] == Backoff(attempt + j)
    decreases MaxRetries - attempt
  {
    var a := AttemptAt(transport, attempt);
    if !a.Delivered? && attempt != MaxRetries - 1 {
      RetryBounds(transport, attempt + 1);
    }
  }

  /** The loop stops at the first exchange that delivers a response, and every exchange before it
      failed in transport; it gives up only after three transport errors. */
  lemma {:induction false} RetryStopsAtFirstDelivery(transport: seq<Attempt>, attempt: nat)
    requires attempt < MaxRetries
    ensures var t := Retry(transport, attempt);
      && (forall k :: attempt <= k < t.count - 1 ==> AttemptAt(transport, k).TransportError?)
      && (t.delivered.Some? <==> AttemptAt(transport, t.count - 1).Delivered?)
      && (t.delivered.Some? ==> t.delivered.value == AttemptAt(transport, t.count - 1))
      && (t.delivered.None? ==> t.count == MaxRetries)
    decreases MaxRetries - attempt
  {
    RetryBounds(transport, attempt);
    var a := AttemptAt(transport, attempt);
    if !a.Delivered? && attempt != MaxRetries - 1 {
      RetryStopsAtFirstDelivery(transport, attempt + 1);
    }
  }

  /** A call attempts at most three exchanges and pauses at most 1.5 s in all; the pauses are
      0.5 s and then 1 s. */
  lemma CallBounds(baseUrl: string, token: string, plate: string, startTime: Time, endTime: Time,
                   direction: Option<string>, transport: seq<Attempt>)
    ensures var c := GetEvents(baseUrl, token, plate, startTime, endTime, direction, transport);
      && c.attempts <= MaxRetries
      && (c.request.Some? ==> 1 <= c.attempts && |c.delays| == c.attempts - 1)
      && c.delays <= [500, 1000]
  {
    RetryBounds(transport, 0);
  }

  /** No request goes out when the service URL is not configured or the plate normalises to
      nothing. */
  lemma NoRequestWithoutTarget(baseUrl: string, token: string, plate: string, startTime: Time, endTime: Time,
                               direction: Option<string>, transport: seq<Attempt>)
    ensures var c := GetEvents(baseUrl, token, plate, startTime, endTime, direction, transport);
      c.request.None? <==> (baseUrl == "" || PlateNormalizer.NormalizePlate(plate) == "")
    ensures var c := GetEvents(baseUrl, token, plate, startTime, endTime, direction, transport);
      c.request.None? ==> c.attempts == 0 && c.response.Error?
  {
  }

  /** The call returns the events `es` exactly when one of the first three exchanges delivers a
      readable 200 response decoding to `es`, and every exchange before it failed in transport. */
  lemma EventsOnlyFromFirstDelivery(baseUrl: string, token: string, plate: string, startTime: Time, endTime: Time,
                                    direction: Option<string>, transport: seq<Attempt>, es: seq<Event>)
    requires baseUrl != "" && PlateNormalizer.NormalizePlate(plate) != ""
    ensures GetEvents(baseUrl, token, plate, startTime, endTime, direction, transport).response == Events(es) <==>
      (exists k :: 0 <= k < MaxRetries
        && (forall j :: 0 <= j < k ==> AttemptAt(transport, j).TransportError?)
        && AttemptAt(transport, k) == Delivered(StatusOK, Decoded(es)))
  {
    var t := Retry(transport, 0);
    RetryStopsAtFirstDelivery(transport, 0);
    RetryBounds(transport, 0);
    if exists k :: 0 <= k < MaxRetries
        && (forall j :: 0 <= j < k ==> AttemptAt(transport, j).TransportError?)
        && AttemptAt(transport, k) == Delivered(StatusOK, Decoded(es)) {
      var k :| 0 <= k < MaxRetries
        && (forall j :: 0 <= j < k ==> AttemptAt(transport, j).TransportError?)
        && AttemptAt(transport, k) == Delivered(StatusOK, Decoded(es));
      assert k == t.count - 1;
    }
  }

  /** Three transport errors in a row make the call fail as unreachable, after pauses of 0.5 s
      and 1 s. */
  lemma ThreeTransportErrors(baseUrl: string, token: string, plate: string, startTime: Time, endTime: Time,
                             direction: Option<string>, transport: seq<Attempt>)
    requires baseUrl != "" && PlateNormalizer.NormalizePlate(plate) != ""
    requires forall k :: 0 <= k < MaxRetries ==> AttemptAt(transport, k).TransportError?
    ensures GetEvents(baseUrl, token, plate, startTime, endTime, direction, transport) ==
      Call(Error(Unreachable), Some(BuildRequest(token, PlateNormalizer.NormalizePlate(plate), startTime, endTime, direction)),
        3, [500, 1000])
  {
    assert AttemptAt(transport, 0).TransportError?;
    assert AttemptAt(transport, 1).TransportError?;
    assert AttemptAt(transport, 2).TransportError?;
  }
}
