# deconz-go client core, modelled in Dafny

This project models the request/response core of the deCONZ REST client
(`client.go`). The core covers:

- the client value, which binds host, port and API key;
- the URL every request goes to: `http://host:port/api/key/` followed by the path,
  which is neither escaped nor validated;
- how `get`, `put` and `delete` turn the gateway's reply into one result or error;
- the text of a gateway error record, `address: type (description)`;
- the light endpoints, which build their paths by concatenation.

The gateway answers mutations, and failed reads, with an *envelope*. An envelope is an
ordered list of entries, and each entry holds a success map and an error record.
`put` and `delete` reject an empty envelope as malformed. Otherwise they return the
error record of the first entry whose success map is empty, or nil when there is no
such entry. `get` reads a 200 body directly as the resource. For any other status it
reads the body as an envelope: an empty envelope is malformed, and otherwise `get`
returns the first entry's error record.

Files:

- `wrappers.dfy` (`Wrappers`): `Option`, `Result`, and `Outcome`. An `Outcome` is Go's
  `error`: `Pass` is nil.
- `text.dfy` (`Text`): `strconv.Itoa`, which `%d` also prints for an `int`. It also holds
  a decimal reader that inverts `Itoa` and a first-occurrence search.
- `envelope.dfy` (`Envelope`): `ResponseError` and its text, `ResponseEntry`, the error
  taxonomy, and the shared reducer. The reducer is the specification function
  `EnvelopeOutcome` plus the loop `ScanEnvelope`, which is proved equal to it.
- `client.dfy` (`Deconz`): `Client`, its URL, the abstract `Reply`, `Get`,
  `MutationOutcome`, the `Put`/`Delete` methods and the light endpoints.

HTTP and JSON are inputs to the model. A `Reply` is one of two things:

- `NoResponse(reason)`: marshalling the body failed, `http.NewRequest` failed, or
  `httpClient.Do` failed or was cancelled.
- `Answered(status, resource, envelope)`: the status code, plus the body decoded two
  ways. `resource` is the body as the shape `get` asked for and `envelope` is the body
  as an envelope. Each decode either succeeds or fails with a reason.

A `get` reads the view its status selects. `put` and `delete` read only the envelope
view.

A gateway entry is meant to carry either success data or an error record, not both.
The code never checks this, and the model does not either. A non-200 `get`
returns entry 0's error record whatever entry 0's success map holds. An entry without
an `error` object yields the zero record, which is still a non-nil error.

## Model

| member | source | states |
|---|---|---|
| `Text.Itoa` | client.go:58 | The port or id text starts with '-' exactly when the number is negative; the rest is decimal digits only, with no leading zero except for 0 itself |
| `Text.ItoaRoundTrip` | client.go:58 | Reading the decimal text back gives the original number, so the text identifies the number |
| `Text.ItoaInjective` | client.go:199 | Two different ids never print the same text |
| `Envelope.FirstFailed` | client.go:120-124 | The index the scan stops at: every earlier entry has a non-empty success map, and the entry at that index (if there is one) has an empty map |
| `Envelope.EnvelopeOutcome` | client.go:117-126 | The reduction is nil exactly when the envelope is non-empty and every success map is non-empty. It is the malformed error exactly when the envelope is empty. Any other failure is the error record of an entry with an empty success map |
| `Envelope.ScanEnvelope` | client.go:117-126 | The early-return loop over the envelope computes exactly `EnvelopeOutcome` |
| `Envelope.FirstFailureDecides` | client.go:120-124 | If entry k is the lowest-index entry with an empty success map, the result is entry k's error record |
| `Envelope.LaterEntriesIgnored` | client.go:152-156 | Two envelopes that agree up to and including the first failing entry give the same result, whatever follows it |
| `Envelope.ResponseError.Error` | client.go:35-37 | The text is the address, then `: `, then the type as `Itoa` prints it (the `%d`), then ` (` + description + `)`, each at its fixed position |
| `Envelope.MalformedTextIsNoGatewayText` | client.go:13-16 | The fixed text `malformed deconz response` of `ErrMalformedResponse` never equals a gateway error's text, because the latter always has a ':' right after the address |
| `Envelope.ErrorTextRoundTrip` | client.go:35-37 | The text `address: type (description)` gives back address, type and description whenever the address contains no ':' |
| `Envelope.ErrorTextAmbiguous` | client.go:35-37 | If the address may contain ':', two different error records can print the same text |
| `Deconz.Client.URLBase` | client.go:57-59 | The base is `http://`, then the host verbatim, then ':', then the port as `Itoa` prints it, then `/api/` + key + `/`, each at its fixed position and nothing else |
| `Deconz.Client.URL` | client.go:62 | The request URL is the base followed by the path verbatim: the base is its prefix and the path its suffix |
| `Deconz.URLBaseRoundTrip` | client.go:57-59 | The base gives back host, port and API key whenever the host contains no ':' |
| `Deconz.URLInjective` | client.go:98 | Different paths always go to different URLs |
| `Deconz.Get` | client.go:61-90 | The request is a GET of the URL. `get` succeeds exactly when the status is 200 and the body decodes as the resource, and then it returns that resource. A transport failure is returned unchanged as that error (lines 63-64, 70-71). The malformed-response error arises exactly from a non-200 reply whose envelope decodes with no entries |
| `Deconz.MutationOutcome` | client.go:92-159 | `put`/`delete` return nil exactly when the body decodes as an envelope that has at least one entry and every entry's success map is non-empty. A transport failure is returned unchanged (lines 94-95, 99-100, 106-107, 131-132, 138-139). The malformed-response error arises exactly from a decoded envelope with no entries, whatever the status |
| `Deconz.Put` | client.go:92-127 | The request is a PUT of the URL, and the result is `MutationOutcome` of the reply |
| `Deconz.Delete` | client.go:129-159 | The request is a DELETE of the URL, and the result is the same `MutationOutcome` reduction |
| `Deconz.EmptyEnvelopeIsMalformed` | client.go:85-87 | A zero-length envelope is the malformed-response error for `put`, for `delete`, and for a non-200 `get`. It is never a success (see also lines 117-119 and 149-151) |
| `Deconz.MutationReportsFirstFailure` | client.go:152-156 | `put`/`delete` fail with the error record of the lowest-index entry whose success map is empty |
| `Deconz.GetOkIgnoresEnvelope` | client.go:75-77 | With status 200, `get` never consults the envelope view. A failed resource decode is returned as that decode error |
| `Deconz.GetOtherStatusReportsFirstEntry` | client.go:79-89 | With any other status and at least one entry, `get` always fails with entry 0's error record, whatever the later entries hold |
| `Deconz.DecodeFailureTakesPrecedence` | client.go:80-83 | An envelope that fails to decode is returned as that decode error, ahead of every envelope rule, for `get` and for `put`/`delete` (lines 112-115, 144-147) |
| `Deconz.LightSuffix` | client.go:197-220 | The suffix is empty exactly for the light itself; otherwise it is one '/'-led segment (`/state`, `/groups`, `/scenes`) with no further '/' |
| `Deconz.LightPath` | client.go:197-220 | The path is `lights/`, then the id printed by `Itoa`, then the part's suffix, in that order and nothing else |
| `Deconz.LightPathRoundTrip` | client.go:198-220 | A path `lights/<id>`, optionally followed by `/state`, `/groups` or `/scenes`, gives back the id and the sub-resource |
| `Deconz.LightPathInjective` | client.go:197-220 | Different lights, or different sub-resources of one light, never share a path |
| `Deconz.SetLightState` | client.go:197-200 | PUT to `lights/<id>/state`, reduced like every mutation |
| `Deconz.SetLightConfig` | client.go:202-205 | PUT to `lights/<id>`, reduced like every mutation |
| `Deconz.DeleteLight` | client.go:207-210 | DELETE of `lights/<id>`, reduced like every mutation |
| `Deconz.DeleteLightGroups` | client.go:212-215 | DELETE of `lights/<id>/groups`, reduced like every mutation |
| `Deconz.DeleteLightScenes` | client.go:217-220 | DELETE of `lights/<id>/scenes`, reduced like every mutation |

## Left out

- `Deconz.Put`, `Deconz.Delete`, `Deconz.Get`: the `request` of a `Call` is the request the operation addresses. When the reply is `NoResponse` because `json.Marshal` or `http.NewRequest` failed, the source returns before any request exists, and the model still reports that request.
- HTTP transport (`http.NewRequest`, `httpClient.Do`, `WithContext`, `resp.Body.Close`) is network I/O. Its failures become `NoResponse` in a `Reply`.
- JSON encoding and decoding (`encoding/json`) is a foreign library. Decoded values and decode failures are inputs to the model. The request body that `put` marshals is not modelled.
- Success-map values are kept as a small JSON value type, and numbers keep their literal text. The client only ever measures the map's size.
- A Go `int` is at least 32 bits wide (64 on 64-bit platforms); the model uses unbounded integers. Port and id are formatted but never computed with, so no wrap-around can occur.
- `GetGateway` and `GetLights` only call `get` with a fixed path (`config`, `lights`). `GetLight` calls `get` with `lights/<id>`, the path `LightPath(id, Whole)` builds; its URL and result are those of `Get`. The resource shapes they decode into (gateway.go, light.go and the other struct files) hold no behaviour.
- Push-event decoding and created-id extraction are not defined in client.go, and they are not part of this model.
- The example command-line programs are not part of this model. They parse flags, print, and run a websocket monitor.
