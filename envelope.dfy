/** The gateway's answer to a request that did not return a plain resource:
    an ordered envelope of entries, each with a success map and an error
    record, and its reduction to one nil-or-error result. */
module Envelope {
  import opened Wrappers
  import Text

  /** A decoded JSON value, as it sits in an entry's success map. Numbers keep
      their literal text: the client never reads them. */
  datatype JsonValue =
    | JNull
    | JBool(b: bool)
    | JNumber(literal: string)
    | JString(s: string)
    | JArray(items: seq<JsonValue>)
    | JObject(members: map<string, JsonValue>)

  /** The gateway's error record: its numeric error type, the resource address
      it concerns and a human-readable description. */
  datatype ResponseError = ResponseError(errorType: int, address: string, description: string)
  {
    /** The error's text: `address: type (description)`. */
    function Error(): (s: string)
      ensures |s| >= |address| + |description| + 6
      ensures s[..|address|] == address && s[|address|..|address| + 2] == ": "
      ensures s[|s| - |description| - 3..] == " (" + description + ")"
      ensures s[|address| + 2..|s| - |description| - 3] == Text.Itoa(errorType)
    {
      address + ": " + Text.Itoa(errorType) + " (" + description + ")"
    }
  }

  /** One entry of an envelope. A missing `success` object and an empty one
      both read as the empty map; a missing `error` object as the zero record. */
  datatype ResponseEntry = ResponseEntry(success: map<string, JsonValue>, error: ResponseError)

  type Response = seq<ResponseEntry>

  /** An entry reports success when its success map holds at least one pair. */
  predicate Succeeded(e: ResponseEntry) {
    |e.success| >= 1
  }

  /** Every error the client hands back to its caller. */
  datatype ClientError =
    | TransportError(reason: string)  // marshalling, request building, network, cancellation
    | DecodeError(reason: string)     // the body is not the JSON shape asked for
    | MalformedResponse               // an envelope without any entry
    | GatewayError(err: ResponseError)
  {
    /** The caller-visible text of the error (Go's `err.Error()`). */
    function Message(): string {
      match this
      case TransportError(reason) => reason
      case DecodeError(reason) => reason
      case MalformedResponse => MalformedResponseText
      case GatewayError(err) => err.Error()
    }
  }

  const MalformedResponseText := "malformed deconz response"

  /** The malformed-response text never reads as a gateway error's text: the
      latter always holds a ':' and the former holds none. */
  lemma MalformedTextIsNoGatewayText(e: ResponseError)
    ensures MalformedResponse.Message() != GatewayError(e).Message()
  {
    var s := e.Error();
    assert s[|e.address|] == ':' by {
      assert s[|e.address|..|e.address| + 2][0] == ':';
    }
    assert forall i | 0 <= i < |MalformedResponseText| :: MalformedResponseText[i] != ':';
  }

  /** The index of the first entry that did not succeed, or `|resp|` when all did. */
  function FirstFailed(resp: Response): (k: nat)
    ensures k <= |resp|
    ensures forall j | 0 <= j < k :: Succeeded(resp[j])
    ensures k < |resp| ==> !Succeeded(resp[k])
  {
    if |resp| == 0 then 0
    else if !Succeeded(resp[0]) then 0
    else 1 + FirstFailed(resp[1..])
  }

  /** What a mutating request makes of a decoded envelope: an empty envelope is
      malformed, otherwise the first entry without success decides the error,
      and an envelope whose entries all succeeded is a success. */
  function EnvelopeOutcome(resp: Response): (r: Outcome<ClientError>)
    ensures r == Pass <==> |resp| >= 1 && forall i | 0 <= i < |resp| :: Succeeded(resp[i])
    ensures r == Fail(MalformedResponse) <==> |resp| == 0
    ensures r.Fail? && |resp| >= 1 ==>
              exists k | 0 <= k < |resp| :: !Succeeded(resp[k]) && r == Fail(GatewayError(resp[k].error))
  {
    if |resp| < 1 then Fail(MalformedResponse)
    else
      var k := FirstFailed(resp);
      if k < |resp| then Fail(GatewayError(resp[k].error)) else Pass
  }

  /** The loop `put` and `delete` run over a decoded envelope: reject an empty
      one, return the error of the first entry without success, else nil. */
  method ScanEnvelope(resp: Response) returns (r: Outcome<ClientError>)
    ensures r == EnvelopeOutcome(resp)
  {
    if |resp| < 1 {
      return Fail(MalformedResponse);
    }
    for i := 0 to |resp|
      invariant forall j | 0 <= j < i :: Succeeded(resp[j])
    {
      if !Succeeded(resp[i]) {
        return Fail(GatewayError(resp[i].error));
      }
    }
    return Pass;
  }

  /** The first entry without success decides the outcome. */
  lemma FirstFailureDecides(resp: Response, k: nat)
    requires k < |resp| && !Succeeded(resp[k])
    requires forall j | 0 <= j < k :: Succeeded(resp[j])
    ensures EnvelopeOutcome(resp) == Fail(GatewayError(resp[k].error))
  {
  }

  /** Entries after the first one without success do not affect the outcome. */
  lemma LaterEntriesIgnored(resp: Response, other: Response, k: nat)
    requires k < |resp| && !Succeeded(resp[k])
    requires forall j | 0 <= j < k :: Succeeded(resp[j])
    requires k < |other| && other[..k + 1] == resp[..k + 1]
    ensures EnvelopeOutcome(other) == EnvelopeOutcome(resp)
  {
    forall j | 0 <= j <= k
      ensures other[j] == resp[j]
    {
      assert other[j] == other[..k + 1][j];
    }
    FirstFailureDecides(resp, k);
    FirstFailureDecides(other, k);
  }

  /** Reads an error text back: the address runs up to the first ':', which
      must be followed by a space and the type-and-description tail. */
  function ParseErrorText(s: string): (r: Option<ResponseError>)
    ensures r.Some? ==> |s| >= 6 && s[|s| - 1] == ')'
  {
    var i := Text.IndexOf(s, ':');
    if i + 2 > |s| || s[i + 1] != ' ' then None
    else
      match ParseTypeAndDescription(s[i + 2..])
      case None => None
      case Some(td) => Some(ResponseError(td.0, s[..i], td.1))
  }

  /** Reads `type (description)`: the type runs up to the first space, the
      description fills the final parentheses. */
  function ParseTypeAndDescription(rest: string): (r: Option<(int, string)>)
    ensures r.Some? ==> |rest| >= 4 && rest[|rest| - 1] == ')'
  {
    var j := Text.IndexOf(rest, ' ');
    if j + 3 > |rest| || rest[j + 1] != '(' || rest[|rest| - 1] != ')' then None
    else
      match Text.ParseInt(rest[..j])
      case None => None
      case Some(t) => Some((t, rest[j + 2..|rest| - 1]))
  }

  lemma TypeAndDescriptionRoundTrip(t: int, description: string)
    ensures ParseTypeAndDescription(Text.Itoa(t) + " (" + description + ")") == Some((t, description))
  {
    var d := Text.Itoa(t);
    var tail := " (" + description + ")";
    var rest := d + tail;
    assert Text.Itoa(t) + " (" + description + ")" == rest;
    Text.ItoaLacks(t, ' ');
    Text.IndexOfAfter(d, tail, ' ');
    assert rest[|d| + 1] == '(' && rest[|rest| - 1] == ')';
    assert rest[..|d|] == d;
    assert rest[|d| + 2..|rest| - 1] == description;
    Text.ItoaRoundTrip(t);
  }

  /** Reads back `address: <tail>` when the address holds no ':'. */
  lemma AddressSplit(a: string, tail: string)
    requires forall i | 0 <= i < |a| :: a[i] != ':'
    ensures Text.IndexOf(a + ": " + tail, ':') == |a|
    ensures (a + ": " + tail)[..|a|] == a && (a + ": " + tail)[|a| + 1] == ' '
    ensures (a + ": " + tail)[|a| + 2..] == tail
  {
    assert a + ": " + tail == a + (": " + tail);
    Text.IndexOfAfter(a, ": " + tail, ':');
  }

  /** An error's text determines the error whenever its address holds no ':'. */
  lemma ErrorTextRoundTrip(e: ResponseError)
    requires forall i | 0 <= i < |e.address| :: e.address[i] != ':'
    ensures ParseErrorText(e.Error()) == Some(e)
  {
    var rest := Text.Itoa(e.errorType) + " (" + e.description + ")";
    assert e.Error() == e.address + ": " + rest;
    AddressSplit(e.address, rest);
    TypeAndDescriptionRoundTrip(e.errorType, e.description);
  }

  /** Without that restriction the text is ambiguous: two different errors
      can print the same line. */
  lemma ErrorTextAmbiguous()
    ensures ResponseError(1, "a: 1 (b", "c").Error() == ResponseError(1, "a", "b: 1 (c").Error()
  {
  }
}
