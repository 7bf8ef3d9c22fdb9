/** rest/rest.go: decoding a JSON request body and validating it. The JSON decoder is
    abstract: what it leaves in the payload and whether it reported an error are inputs. */
module Rest {
  import opened Common
  import opened Ferrors
  import opened HttpErrors
  import opened RestParameter

  /** A context.Context; ReadJSON receives one but never consults it. */
  datatype Context = Background | Derived(id: nat)

  /** What json.NewDecoder(r.Body).Decode(payload) did: the payload as the decoder left it
      (possibly partly filled on failure) and the text of its error, if any. */
  datatype Decoded<T> = Decoded(payload: T, failure: Option<string>)

  /** ReadJSON: a decode failure becomes a BadRequest "Err: <err> message: bad json format". */
  function ReadJSON<T>(ctx: Context, decoded: Decoded<T>): (res: Ret<T>)
    ensures res.value == decoded.payload
    ensures decoded.failure.None? <==> res.err == Nil
    ensures decoded.failure.Some? ==>
      && Renders(res.err) && HttpStatusCode(res.err) == 400
      && res.err.BadRequestErr? && GetFields(res.err) == None
      && Text(res.err) == "Err: " + decoded.failure.value + " message: bad json format"
  {
    match decoded.failure
    case None => Ret(decoded.payload, Nil)
    case Some(reason) =>
      Ret(decoded.payload, NewBadRequest(Plain("Err: " + reason + " message: bad json format")))
  }

  /** DeserializeJSON: ReadJSON with the background context. */
  function DeserializeJSON<T>(decoded: Decoded<T>): (res: Ret<T>)
    ensures res == ReadJSON(Background, decoded)
  {
    ReadJSON(Background, decoded)
  }

  /** The context passed to ReadJSON has no effect on its result. */
  lemma ReadJSONIgnoresContext<T>(c1: Context, c2: Context, decoded: Decoded<T>)
    ensures ReadJSON(c1, decoded) == ReadJSON(c2, decoded)
  {
  }

  /** RequestBody[REQ]: decode; on failure return the decoder's error as is, without
      validating; otherwise a Validate() error is wrapped directly in a BadRequest (a
      validation.Errors becomes its field map). */
  function RequestBody<T>(decoded: Decoded<T>, validate: T -> Error): (res: Ret<T>)
    ensures res.value == decoded.payload
    ensures decoded.failure.Some? ==> res.err == DeserializeJSON(decoded).err
    ensures decoded.failure.None? && validate(decoded.payload) != Nil ==>
      && res.err == NewBadRequest(validate(decoded.payload))
      && HttpStatusCode(res.err) == 400
      && GetFields(res.err) == FieldsOf(validate(decoded.payload))
    ensures res.err == Nil <==> decoded.failure.None? && validate(decoded.payload) == Nil
  {
    var d := DeserializeJSON(decoded);
    if d.err != Nil then d
    else
      var verr := validate(d.value);
      if verr != Nil then Ret(d.value, NewBadRequest(verr))
      else Ret(d.value, Nil)
  }

  /** When decoding fails the result does not depend on the validator: Validate is not called. */
  lemma DecodeFailureSkipsValidation<T>(decoded: Decoded<T>, v1: T -> Error, v2: T -> Error)
    requires decoded.failure.Some?
    ensures RequestBody(decoded, v1) == RequestBody(decoded, v2)
  {
  }
}
