/** httpmiddleware/middleware.go: the error-handling request adapter and SendJSON, over a
    response writer that records every call made on it. */
module HttpMiddleware {
  import opened Common
  import opened Ferrors
  import opened HttpErrors

  /** One call on an http.ResponseWriter. */
  datatype Event =
    | StatusWritten(code: int)                  // WriteHeader(code)
    | HeaderSet(key: string, value: string)     // Header().Set(key, value)
    | BodyWritten(payload: ErrorResponse)       // a successful json Encode(payload) into the body

  const ContentType := "Content-Type"
  const ApplicationJson := "application/json"
  const EncodeFailedText := "Error to decode"

  /** The response writer as a recorder of the calls made on it, in order. */
  class ResponseWriter {
    var trace: seq<Event>

    constructor ()
      ensures trace == []
    {
      trace := [];
    }

    method WriteHeader(code: int)
      modifies this
      ensures trace == old(trace) + [StatusWritten(code)]
    {
      trace := trace + [StatusWritten(code)];
    }

    method SetHeader(key: string, value: string)
      modifies this
      ensures trace == old(trace) + [HeaderSet(key, value)]
    {
      trace := trace + [HeaderSet(key, value)];
    }

    /** json.NewEncoder(resp).Encode(payload); whether encoding succeeds is an input. On
        failure nothing is recorded as written. */
    method Encode(payload: ErrorResponse, encodes: bool) returns (ok: bool)
      modifies this
      ensures ok == encodes
      ensures trace == old(trace) + (if encodes then [BodyWritten(payload)] else [])
    {
      if encodes {
        trace := trace + [BodyWritten(payload)];
      }
      ok := encodes;
    }
  }

  /** The status line a client receives for a trace, following net/http: the first
      WriteHeader wins (later ones are superfluous and ignored), and a body written before
      any WriteHeader implies 200. None while neither has happened. */
  function SentStatus(trace: seq<Event>): (s: Option<int>)
    ensures s.None? <==> forall k :: 0 <= k < |trace| ==> trace[k].HeaderSet?
  {
    if trace == [] then None
    else match trace[0]
      case StatusWritten(c) => Some(c)
      case BodyWritten(_) => Some(200)
      case HeaderSet(_, _) => SentStatus(trace[1..])
  }

  /** Once the status is decided, nothing appended later changes it; while it is undecided,
      the appended events decide it. */
  lemma {:induction false} SentStatusAppend(t1: seq<Event>, t2: seq<Event>)
    ensures SentStatus(t1).Some? ==> SentStatus(t1 + t2) == SentStatus(t1)
    ensures SentStatus(t1).None? ==> SentStatus(t1 + t2) == SentStatus(t2)
    decreases |t1|
  {
    if t1 != [] {
      assert (t1 + t2)[0] == t1[0];
      assert (t1 + t2)[1..] == t1[1..] + t2;
      SentStatusAppend(t1[1..], t2);
    } else {
      assert t1 + t2 == t2;
    }
  }

  /** The envelope HandlerError sends: the message is `err.Error()` and no fields are set. */
  function Envelope(err: Error, now: Timestamp): (r: ErrorResponse)
    requires Renders(err)
    ensures r.timestamp == now && r.message == Text(err) && r.fields == []
  {
    ErrorResponse(now, Text(err), [])
  }

  /** SendJSON(resp, payload): sets the content type, encodes; on failure writes 500 and
      returns the error "Error to decode". */
  method SendJSON(resp: ResponseWriter, payload: ErrorResponse, encodes: bool) returns (err: Error)
    modifies resp
    ensures resp.trace == old(resp.trace) + [HeaderSet(ContentType, ApplicationJson)]
      + (if encodes then [BodyWritten(payload)] else [StatusWritten(500)])
    ensures err == (if encodes then Nil else Plain(EncodeFailedText))
  {
    resp.SetHeader(ContentType, ApplicationJson);
    var ok := resp.Encode(payload, encodes);
    if !ok {
      resp.WriteHeader(500);
      return Plain(EncodeFailedText);
    }
    return Nil;
  }

  /** The http.Handler that HandlerError(h) returns, serving one request: `handlerErr` is
      what h returned (h's own writes are already in resp.trace); `now` is time.Now(). */
  method HandlerError(resp: ResponseWriter, handlerErr: Error, now: Timestamp, encodes: bool)
    requires Printable(handlerErr)
    modifies resp
    ensures handlerErr == Nil ==> resp.trace == old(resp.trace)
    ensures handlerErr != Nil ==>
      resp.trace == old(resp.trace)
        + [StatusWritten(HttpStatusCode(handlerErr)), HeaderSet(ContentType, ApplicationJson)]
        + (if encodes then [BodyWritten(Envelope(handlerErr, now))] else [StatusWritten(500)])
  {
    if handlerErr != Nil {
      var httpStatus := HttpStatusCode(handlerErr);
      var message := Text(handlerErr);
      resp.WriteHeader(httpStatus);
      var errorResponse := ErrorResponse(now, message, []);
      var _ := SendJSON(resp, errorResponse, encodes);
    }
  }

  /** When the handler itself wrote no status and no body, the client receives exactly
      httpStatusCode(err): the 500 that SendJSON writes after an encode failure is superfluous. */
  lemma HandlerErrorSendsDispatchedStatus(before: seq<Event>, err: Error, now: Timestamp, encodes: bool)
    requires Renders(err)
    requires SentStatus(before).None?
    ensures SentStatus(before
        + [StatusWritten(HttpStatusCode(err)), HeaderSet(ContentType, ApplicationJson)]
        + (if encodes then [BodyWritten(Envelope(err, now))] else [StatusWritten(500)]))
      == Some(HttpStatusCode(err))
  {
    var tail := [StatusWritten(HttpStatusCode(err)), HeaderSet(ContentType, ApplicationJson)];
    var last: seq<Event> := if encodes then [BodyWritten(Envelope(err, now))] else [StatusWritten(500)];
    SentStatusAppend(before, tail);
    SentStatusAppend(before + tail, last);
  }

  /** The envelope's message is the cause's text, never the kind's default message nor an
      Unauthorized's custom Msg(); its field list stays empty even for a 400 with a field map. */
  lemma EnvelopeIgnoresKindMessageAndFields(cause: Error, message: string, now: Timestamp)
    requires Renders(cause)
    ensures Envelope(UnauthorizedErr(cause, message), now).message == Text(cause)
    ensures Envelope(NewBadRequest(cause), now).message == Text(cause)
    ensures Envelope(NewBadRequest(cause), now).fields == []
  {
  }
}
