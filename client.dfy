/** The deCONZ REST client: a value binding host, port and API key, the URL it
    addresses, and how `get`, `put` and `delete` turn the gateway's reply into
    a result or an error. */
module Deconz {
  import opened Wrappers
  import Text
  import opened Envelope

  const Scheme := "http://"
  const ApiSegment := "/api/"

  /** What `NewClient` binds; the HTTP client itself is transport and is
      not part of the value. Nothing updates these fields after construction. */
  datatype Client = Client(hostname: string, port: int, apiKey: string)
  {
    /** `http://host:port/api/key/`. */
    function URLBase(): (s: string)
      ensures |s| > |Scheme| && s[..|Scheme|] == Scheme && s[|s| - 1] == '/'
      ensures |s| == |Scheme| + |hostname| + 1 + |Text.Itoa(port)| + |ApiSegment| + |apiKey| + 1
      ensures s[|Scheme|..|Scheme| + |hostname|] == hostname && s[|Scheme| + |hostname|] == ':'
      ensures s[|Scheme| + |hostname| + 1..|Scheme| + |hostname| + 1 + |Text.Itoa(port)|] == Text.Itoa(port)
      ensures s[|s| - |apiKey| - 1 - |ApiSegment|..] == ApiSegment + apiKey + "/"
    {
      Scheme + hostname + ":" + Text.Itoa(port) + ApiSegment + apiKey + "/"
    }

    /** The URL of a request: the base, then the path verbatim (no escaping,
        no validation). */
    function URL(path: string): (u: string)
      ensures |u| == |URLBase()| + |path|
      ensures u[..|URLBase()|] == URLBase() && u[|URLBase()|..] == path
    {
      URLBase() + path
    }
  }

  /** Reads a URL base back: the scheme, then host, port and key. */
  function ParseURLBase(s: string): (r: Option<Client>)
    ensures r.Some? ==> |s| > |Scheme| && s[..|Scheme|] == Scheme
  {
    if !(Scheme <= s) then None
    else ParseHostPortAndKey(s[|Scheme|..])
  }

  /** Reads `host:port/api/key/`: the host runs up to the first ':'. */
  function ParseHostPortAndKey(s: string): (r: Option<Client>)
    ensures r.Some? ==> |s| >= 1
  {
    var i := Text.IndexOf(s, ':');
    if i == |s| then None
    else
      match ParsePortAndKey(s[i + 1..])
      case None => None
      case Some(pk) => Some(Client(s[..i], pk.0, pk.1))
  }

  /** Reads `port/api/key/`: the port up to the first '/', the key between
      `/api/` and the final '/'. */
  function ParsePortAndKey(s: string): (r: Option<(int, string)>)
    ensures r.Some? ==> |s| >= 1 && s[|s| - 1] == '/'
  {
    var j := Text.IndexOf(s, '/');
    var tail := s[j..];
    if |tail| <= |ApiSegment| || tail[..|ApiSegment|] != ApiSegment || tail[|tail| - 1] != '/' then None
    else
      match Text.ParseInt(s[..j])
      case None => None
      case Some(p) => Some((p, tail[|ApiSegment|..|tail| - 1]))
  }

  lemma PortAndKeyRoundTrip(port: int, apiKey: string)
    ensures ParsePortAndKey(Text.Itoa(port) + ApiSegment + apiKey + "/") == Some((port, apiKey))
  {
    var d := Text.Itoa(port);
    var tail := ApiSegment + apiKey + "/";
    var s := d + tail;
    assert Text.Itoa(port) + ApiSegment + apiKey + "/" == s;
    Text.ItoaLacks(port, '/');
    Text.IndexOfAfter(d, tail, '/');
    assert s[..|d|] == d && s[|d|..] == tail;
    assert tail[..|ApiSegment|] == ApiSegment;
    assert tail[|ApiSegment|..|tail| - 1] == apiKey;
    Text.ItoaRoundTrip(port);
  }

  lemma HostPortAndKeyRoundTrip(c: Client)
    requires forall i | 0 <= i < |c.hostname| :: c.hostname[i] != ':'
    ensures ParseHostPortAndKey(c.hostname + ":" + Text.Itoa(c.port) + ApiSegment + c.apiKey + "/") == Some(c)
  {
    var portAndKey := Text.Itoa(c.port) + ApiSegment + c.apiKey + "/";
    var s := c.hostname + (":" + portAndKey);
    assert c.hostname + ":" + Text.Itoa(c.port) + ApiSegment + c.apiKey + "/" == s;
    Text.IndexOfAfter(c.hostname, ":" + portAndKey, ':');
    assert s[..|c.hostname|] == c.hostname;
    assert s[|c.hostname| + 1..] == portAndKey;
    PortAndKeyRoundTrip(c.port, c.apiKey);
  }

  /** The URL base determines the client whenever the host name holds no ':'
      (the API key may hold anything, '/' included). */
  lemma URLBaseRoundTrip(c: Client)
    requires forall i | 0 <= i < |c.hostname| :: c.hostname[i] != ':'
    ensures ParseURLBase(c.URLBase()) == Some(c)
  {
    var s := c.URLBase();
    var rest := c.hostname + ":" + Text.Itoa(c.port) + ApiSegment + c.apiKey + "/";
    assert s == Scheme + rest;
    assert s[|Scheme|..] == rest;
    HostPortAndKeyRoundTrip(c);
  }

  /** Requests address different URLs exactly when their paths differ. */
  lemma URLInjective(c: Client, p: string, q: string)
    requires c.URL(p) == c.URL(q)
    ensures p == q
  {
  }

  datatype HttpMethod = MethodGet | MethodPut | MethodDelete

  datatype Request = Request(verb: HttpMethod, url: string)

  /** What the transport and the JSON decoder make of a request. Either no
      response came back (the body could not be marshalled, the request could
      not be built, the exchange failed or was cancelled), or one did, with its
      status code and the body decoded both as the resource the caller asked
      for and as an envelope, each decode succeeding or failing. */
  datatype Reply<T> =
    | NoResponse(reason: string)
    | Answered(status: int, resource: Result<T, string>, envelope: Result<Response, string>)

  /** The request an operation addresses (when the reply is `NoResponse` the
      source may have returned before building it) and what the operation
      returns to its caller. */
  datatype Call<R> = Call(request: Request, result: R)

  /** `get`: a 200 decodes the body as the resource; any other status decodes
      it as an envelope and reports an empty one as malformed, otherwise the
      error record of its first entry. */
  function Get<T>(c: Client, path: string, reply: Reply<T>): (call: Call<Result<T, ClientError>>)
    ensures call.request == Request(MethodGet, c.URL(path))
    ensures call.result.Success? <==> reply.Answered? && reply.status == 200 && reply.resource.Success?
    ensures call.result.Success? ==> call.result.value == reply.resource.value
    ensures reply.NoResponse? ==> call.result == Failure(TransportError(reply.reason))
    ensures call.result == Failure(MalformedResponse) <==>
              reply.Answered? && reply.status != 200 && reply.envelope.Success? && |reply.envelope.value| == 0
  {
    var result :=
      match reply
      case NoResponse(reason) => Failure(TransportError(reason))
      case Answered(status, resource, envelope) =>
        if status == 200 then
          match resource
          case Success(v) => Success(v)
          case Failure(reason) => Failure(DecodeError(reason))
        else
          match envelope
          case Failure(reason) => Failure(DecodeError(reason))
          case Success(resp) =>
            if |resp| < 1 then Failure(MalformedResponse) else Failure(GatewayError(resp[0].error));
    Call(Request(MethodGet, c.URL(path)), result)
  }

  /** What `put` and `delete` return: the failure to get a response, the
      failure to decode the envelope, or the envelope's own outcome. The status
      code and the resource view of the body play no part. */
  function MutationOutcome<T>(reply: Reply<T>): (r: Outcome<ClientError>)
    ensures r == Pass <==>
              && reply.Answered? && reply.envelope.Success?
              && |reply.envelope.value| >= 1
              && forall i | 0 <= i < |reply.envelope.value| :: Succeeded(reply.envelope.value[i])
    ensures reply.NoResponse? ==> r == Fail(TransportError(reply.reason))
    ensures r == Fail(MalformedResponse) <==>
              reply.Answered? && reply.envelope.Success? && |reply.envelope.value| == 0
  {
    match reply
    case NoResponse(reason) => Fail(TransportError(reason))
    case Answered(_, _, envelope) =>
      match envelope
      case Failure(reason) => Fail(DecodeError(reason))
      case Success(resp) => EnvelopeOutcome(resp)
  }

  /** `put`: decode the envelope whatever the status and scan it. */
  method Put<T>(c: Client, path: string, reply: Reply<T>) returns (call: Call<Outcome<ClientError>>)
    ensures call.request == Request(MethodPut, c.URL(path))
    ensures call.result == MutationOutcome(reply)
  {
    var request := Request(MethodPut, c.URL(path));
    match reply {
      case NoResponse(reason) =>
        return Call(request, Fail(TransportError(reason)));
      case Answered(_, _, envelope) =>
        if envelope.Failure? {
          return Call(request, Fail(DecodeError(envelope.error)));
        }
        var outcome := ScanEnvelope(envelope.value);
        return Call(request, outcome);
    }
  }

  /** `delete`: the same reduction as `put`, for a DELETE request. */
  method Delete<T>(c: Client, path: string, reply: Reply<T>) returns (call: Call<Outcome<ClientError>>)
    ensures call.request == Request(MethodDelete, c.URL(path))
    ensures call.result == MutationOutcome(reply)
  {
    var request := Request(MethodDelete, c.URL(path));
    match reply {
      case NoResponse(reason) =>
        return Call(request, Fail(TransportError(reason)));
      case Answered(_, _, envelope) =>
        if envelope.Failure? {
          return Call(request, Fail(DecodeError(envelope.error)));
        }
        var outcome := ScanEnvelope(envelope.value);
        return Call(request, outcome);
    }
  }

  /** A decoded envelope without entries is malformed for `put` and `delete`,
      and for `get` whenever the status is not 200. */
  lemma EmptyEnvelopeIsMalformed<T>(c: Client, path: string, status: int, resource: Result<T, string>)
    ensures MutationOutcome(Answered(status, resource, Success([]))) == Fail(MalformedResponse)
    ensures status != 200 ==> Get(c, path, Answered(status, resource, Success([]))).result == Failure(MalformedResponse)
  {
  }

  /** For `put` and `delete`, the first entry without success decides the error. */
  lemma MutationReportsFirstFailure<T>(reply: Reply<T>, k: nat)
    requires reply.Answered? && reply.envelope.Success?
    requires k < |reply.envelope.value| && !Succeeded(reply.envelope.value[k])
    requires forall j | 0 <= j < k :: Succeeded(reply.envelope.value[j])
    ensures MutationOutcome(reply) == Fail(GatewayError(reply.envelope.value[k].error))
  {
    FirstFailureDecides(reply.envelope.value, k);
  }

  /** A 200 reply is read as the resource alone; the envelope view never matters. */
  lemma GetOkIgnoresEnvelope<T>(c: Client, path: string, resource: Result<T, string>,
                                e1: Result<Response, string>, e2: Result<Response, string>)
    ensures Get(c, path, Answered(200, resource, e1)) == Get(c, path, Answered(200, resource, e2))
    ensures resource.Failure? ==> Get(c, path, Answered(200, resource, e1)).result == Failure(DecodeError(resource.error))
  {
  }

  /** Any other status with a non-empty envelope is always an error: the first
      entry's record, whatever that entry's success map and the later entries hold. */
  lemma GetOtherStatusReportsFirstEntry<T>(c: Client, path: string, status: int,
                                           resource: Result<T, string>, resp: Response)
    requires status != 200 && |resp| >= 1
    ensures Get(c, path, Answered(status, resource, Success(resp))).result == Failure(GatewayError(resp[0].error))
  {
  }

  /** A body that does not decode as an envelope is returned as that decode
      error, ahead of every envelope rule. */
  lemma DecodeFailureTakesPrecedence<T>(c: Client, path: string, status: int,
                                        resource: Result<T, string>, reason: string)
    ensures MutationOutcome(Answered(status, resource, Failure(reason))) == Fail(DecodeError(reason))
    ensures status != 200 ==> Get(c, path, Answered(status, resource, Failure(reason))).result == Failure(DecodeError(reason))
  {
  }

  /** The part of a light's resource an endpoint addresses. */
  datatype LightPart = Whole | State | Groups | Scenes

  /** Every sub-resource suffix is empty or a '/'-led segment name. */
  function LightSuffix(part: LightPart): (s: string)
    ensures s == "" <==> part == Whole
    ensures s != "" ==> |s| >= 2 && s[0] == '/' && forall i | 1 <= i < |s| :: s[i] != '/'
  {
    match part
    case Whole => ""
    case State => "/state"
    case Groups => "/groups"
    case Scenes => "/scenes"
  }

  /** `lights/<id>` followed by the part's suffix. */
  function LightPath(id: int, part: LightPart): (p: string)
    ensures |p| == 7 + |Text.Itoa(id)| + |LightSuffix(part)|
    ensures p[..7] == "lights/" && p[7..7 + |Text.Itoa(id)|] == Text.Itoa(id)
    ensures p[7 + |Text.Itoa(id)|..] == LightSuffix(part)
  {
    "lights/" + Text.Itoa(id) + LightSuffix(part)
  }

  function ParseLightSuffix(s: string): (r: Option<LightPart>)
    ensures r.Some? ==> LightSuffix(r.value) == s
  {
    if s == "" then Some(Whole)
    else if s == "/state" then Some(State)
    else if s == "/groups" then Some(Groups)
    else if s == "/scenes" then Some(Scenes)
    else None
  }

  /** Reads a light path back: `lights/`, then the id and the part. */
  function ParseLightPath(p: string): (r: Option<(int, LightPart)>)
    ensures r.Some? ==> |p| > 7 && p[..7] == "lights/"
  {
    if |p| < 7 || p[..7] != "lights/" then None
    else ParseIdAndPart(p[7..])
  }

  /** Reads `<id><suffix>`: the id runs up to the first '/'. */
  function ParseIdAndPart(s: string): (r: Option<(int, LightPart)>)
    ensures r.Some? ==> |s| >= 1
  {
    var k := Text.IndexOf(s, '/');
    match (Text.ParseInt(s[..k]), ParseLightSuffix(s[k..]))
    case (Some(id), Some(part)) => Some((id, part))
    case _ => None
  }

  lemma IdAndPartRoundTrip(id: int, part: LightPart)
    ensures ParseIdAndPart(Text.Itoa(id) + LightSuffix(part)) == Some((id, part))
  {
    var d := Text.Itoa(id);
    var suffix := LightSuffix(part);
    Text.ItoaLacks(id, '/');
    if suffix == "" {
      assert d + suffix == d;
    } else {
      Text.IndexOfAfter(d, suffix, '/');
    }
    assert (d + suffix)[..|d|] == d && (d + suffix)[|d|..] == suffix;
    Text.ItoaRoundTrip(id);
  }

  /** Every light path names its light and part unambiguously. */
  lemma LightPathRoundTrip(id: int, part: LightPart)
    ensures ParseLightPath(LightPath(id, part)) == Some((id, part))
  {
    var p := LightPath(id, part);
    assert p[7..] == Text.Itoa(id) + LightSuffix(part);
    IdAndPartRoundTrip(id, part);
  }

  /** Distinct lights, or distinct parts of one light, never share a path. */
  lemma LightPathInjective(id1: int, part1: LightPart, id2: int, part2: LightPart)
    requires LightPath(id1, part1) == LightPath(id2, part2)
    ensures id1 == id2 && part1 == part2
  {
    LightPathRoundTrip(id1, part1);
    LightPathRoundTrip(id2, part2);
  }

  /** `SetLightState`: PUT to `lights/<id>/state`. */
  method SetLightState<T>(c: Client, id: int, reply: Reply<T>) returns (call: Call<Outcome<ClientError>>)
    ensures call.request == Request(MethodPut, c.URL(LightPath(id, State)))
    ensures call.result == MutationOutcome(reply)
  {
    call := Put(c, LightPath(id, State), reply);
  }

  /** `SetLightConfig`: PUT to `lights/<id>`. */
  method SetLightConfig<T>(c: Client, id: int, reply: Reply<T>) returns (call: Call<Outcome<ClientError>>)
    ensures call.request == Request(MethodPut, c.URL(LightPath(id, Whole)))
    ensures call.result == MutationOutcome(reply)
  {
    call := Put(c, LightPath(id, Whole), reply);
  }

  /** `DeleteLight`: DELETE of `lights/<id>`. */
  method DeleteLight<T>(c: Client, id: int, reply: Reply<T>) returns (call: Call<Outcome<ClientError>>)
    ensures call.request == Request(MethodDelete, c.URL(LightPath(id, Whole)))
    ensures call.result == MutationOutcome(reply)
  {
    call := Delete(c, LightPath(id, Whole), reply);
  }

  /** `DeleteLightGroups`: DELETE of `lights/<id>/groups`. */
  method DeleteLightGroups<T>(c: Client, id: int, reply: Reply<T>) returns (call: Call<Outcome<ClientError>>)
    ensures call.request == Request(MethodDelete, c.URL(LightPath(id, Groups)))
    ensures call.result == MutationOutcome(reply)
  {
    call := Delete(c, LightPath(id, Groups), reply);
  }

  /** `DeleteLightScenes`: DELETE of `lights/<id>/scenes`. */
  method DeleteLightScenes<T>(c: Client, id: int, reply: Reply<T>) returns (call: Call<Outcome<ClientError>>)
    ensures call.request == Request(MethodDelete, c.URL(LightPath(id, Scenes)))
    ensures call.result == MutationOutcome(reply)
  {
    call := Delete(c, LightPath(id, Scenes), reply);
  }
}
