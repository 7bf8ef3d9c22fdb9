/** httpmiddleware/errors.go: the response envelope and the status dispatcher. The dispatcher
    is a Go type switch over four capability interfaces; a value satisfies an interface when
    its dynamic type's method set contains all of the interface's methods. */
module HttpErrors {
  import opened Ferrors

  /** An abstract instant (the envelope's time.Now()); never interpreted. */
  type Timestamp = int

  datatype Field = Field(name: string, message: string)

  /** ErrorResponse. `fields` is serialised with omitempty: an empty list is left out. */
  datatype ErrorResponse = ErrorResponse(timestamp: Timestamp, message: string, fields: seq<Field>)

  /** The method sets of the four interfaces the switch tests. */
  const BadRequestIface: set<Method> := {BadRequestMethod, GetFieldsMethod}
  const NotFoundIface: set<Method> := {NotFoundMethod}
  const UnauthorizedIface: set<Method> := {UnauthorizedMethod}
  const NotAcceptableIface: set<Method> := {NotAcceptableMethod}

  predicate Satisfies(e: Error, iface: set<Method>): (b: bool)
    ensures b <==> forall m :: m in iface ==> m in Methods(e)
  {
    iface <= Methods(e)
  }

  /** httpStatusCode: the first matching case of the type switch, 500 when none matches.
      The switch looks at the outermost value only; it does not unwrap. */
  function HttpStatusCode(e: Error): (code: int)
    ensures code in {400, 401, 404, 406, 500}
    ensures code == 400 <==> Satisfies(e, BadRequestIface)
    ensures code == 500 <==> (!Satisfies(e, BadRequestIface) && !Satisfies(e, NotFoundIface)
                              && !Satisfies(e, UnauthorizedIface) && !Satisfies(e, NotAcceptableIface))
  {
    if Satisfies(e, BadRequestIface) then 400
    else if Satisfies(e, NotFoundIface) then 404
    else if Satisfies(e, UnauthorizedIface) then 401
    else if Satisfies(e, NotAcceptableIface) then 406
    else 500
  }

  /** A type switch in general: the code of the first case whose interface the value
      satisfies, and the default code when none does. */
  function FirstMatch(cases: seq<(set<Method>, int)>, e: Error, default: int): (code: int)
    ensures code == default || exists k :: 0 <= k < |cases| && cases[k].1 == code
  {
    if cases == [] then default
    else if Satisfies(e, cases[0].0) then cases[0].1
    else FirstMatch(cases[1..], e, default)
  }

  /** The case list of httpStatusCode, in source order. */
  const StatusCases: seq<(set<Method>, int)> :=
    [(BadRequestIface, 400), (NotFoundIface, 404), (UnauthorizedIface, 401), (NotAcceptableIface, 406)]

  /** HttpStatusCode is exactly the first-match type switch over StatusCases with default 500. */
  lemma {:induction false} StatusIsFirstMatch(e: Error)
    ensures HttpStatusCode(e) == FirstMatch(StatusCases, e, 500)
  {
    var c0 := StatusCases;
    var c1 := [(NotFoundIface, 404), (UnauthorizedIface, 401), (NotAcceptableIface, 406)];
    var c2 := [(UnauthorizedIface, 401), (NotAcceptableIface, 406)];
    var c3 := [(NotAcceptableIface, 406)];
    assert c0[1..] == c1 && c1[1..] == c2 && c2[1..] == c3 && c3[1..] == [];
    assert FirstMatch(c3, e, 500) == if Satisfies(e, NotAcceptableIface) then 406 else 500;
    assert FirstMatch(c2, e, 500) == if Satisfies(e, UnauthorizedIface) then 401 else FirstMatch(c3, e, 500);
    assert FirstMatch(c1, e, 500) == if Satisfies(e, NotFoundIface) then 404 else FirstMatch(c2, e, 500);
    assert FirstMatch(c0, e, 500) == if Satisfies(e, BadRequestIface) then 400 else FirstMatch(c1, e, 500);
  }

  /** Each later case applies only when every earlier one failed. */
  lemma StatusPriority(e: Error)
    ensures HttpStatusCode(e) == 404 <==> !Satisfies(e, BadRequestIface) && Satisfies(e, NotFoundIface)
    ensures HttpStatusCode(e) == 401 <==>
      !Satisfies(e, BadRequestIface) && !Satisfies(e, NotFoundIface) && Satisfies(e, UnauthorizedIface)
    ensures HttpStatusCode(e) == 406 <==>
      !Satisfies(e, BadRequestIface) && !Satisfies(e, NotFoundIface) && !Satisfies(e, UnauthorizedIface)
      && Satisfies(e, NotAcceptableIface)
  {
  }

  /** The status depends only on the outermost value's method set. */
  lemma StatusDependsOnlyOnMethods(e1: Error, e2: Error)
    requires Methods(e1) == Methods(e2)
    ensures HttpStatusCode(e1) == HttpStatusCode(e2)
  {
  }

  /** What each kind's constructor dispatches to. Conflict, Forbidden and InternalServer have no
      case of their own and fall to the default; Unauthorized gets 401 whatever its message. */
  lemma StatusOfKinds(err: Error, message: string)
    ensures HttpStatusCode(NewBadRequest(err)) == 400
    ensures HttpStatusCode(NewNotFound(err)) == 404
    ensures HttpStatusCode(UnauthorizedErr(err, message)) == 401
    ensures HttpStatusCode(NewNotAcceptable(err)) == 406
    ensures HttpStatusCode(NewConflict(err)) == 500
    ensures HttpStatusCode(NewForbidden(err)) == 500
    ensures HttpStatusCode(NewInternalServer(err)) == 500
  {
    UncategorisedIsInternal(NewConflict(err));
    UncategorisedIsInternal(NewForbidden(err));
    UncategorisedIsInternal(NewInternalServer(err));
  }

  /** A type with Conflict() and GetFields() but no BadRequest() is not a badrequest; one with
      BadRequest() but no GetFields() is not one either. */
  lemma BadRequestNeedsBothMethods(text: string)
    ensures HttpStatusCode(Foreign(text, {ConflictMethod, GetFieldsMethod})) == 500
    ensures HttpStatusCode(Foreign(text, {BadRequestMethod})) == 500
    ensures HttpStatusCode(Foreign(text, {BadRequestMethod, GetFieldsMethod, NotFoundMethod})) == 400
  {
  }

  /** A kind wrapped by pkg/errors is not recognised: the wrapper only defines Cause(). */
  lemma WrappedKindIsNotRecognised(e: Error, msg: string)
    requires e != Nil
    ensures HttpStatusCode(Wrap(e, msg)) == 500
  {
  }

  /** Plain errors, validation errors, sentinels and nil all map to 500. */
  lemma UncategorisedIsInternal(e: Error)
    requires BadRequestMethod !in Methods(e) && NotFoundMethod !in Methods(e)
    requires UnauthorizedMethod !in Methods(e) && NotAcceptableMethod !in Methods(e)
    ensures HttpStatusCode(e) == 500
  {
  }

  /** The Unauthorized pointer dispatches to 401 before and after any mutator. */
  lemma UnauthorizedObjectIs401(u: UnauthorizedError)
    ensures HttpStatusCode(u.Value()) == 401
  {
  }
}
