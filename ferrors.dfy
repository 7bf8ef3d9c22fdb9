/** Go error values as this module's packages see them, and the seven typed HTTP error kinds of package
    `ferrors`. An error value is described by what the code can observe about it: whether it is
    nil, its dynamic type's method set (which decides interface satisfaction in a type switch),
    its `Error()` text, identity with a package-level sentinel, and the fields a kind stores. */
module Ferrors {
  import opened Common

  /** Package-level sentinel errors that the packages compare against with `==`. */
  datatype Sentinel =
    | ErrNoRows          // database/sql: sql.ErrNoRows
    | ErrTxDone          // database/sql: sql.ErrTxDone
    | ErrNilVersion      // golang-migrate: migrate.ErrNilVersion
    | ErrNoChange        // golang-migrate: migrate.ErrNoChange
    | ErrDirtyMigration  // dbmigrate.ErrDirtyMigration

  /** Methods beyond `Error()` that an error's dynamic type may define. */
  datatype Method =
    | BadRequestMethod | ConflictMethod | ForbiddenMethod | InternalServerMethod
    | NotAcceptableMethod | NotFoundMethod | UnauthorizedMethod
    | GetFieldsMethod | MsgMethod | CauseMethod

  /** A value of Go's `error` interface type. The kinds embed their cause as an `error`
      field, which may itself be nil (Go does not stop a caller from passing nil). */
  datatype Error =
    | Nil
    | Plain(text: string)                                   // errors.New, fmt.Errorf without %w
    | Validation(entries: map<string, Error>, text: string)  // validation.Errors; text as the library renders it
    | SentinelErr(sentinel: Sentinel)
    | Wrapped(msg: string, cause: Error)                    // pkg/errors Wrap / Wrapf
    | Foreign(text: string, methods: set<Method>)           // any other error type
    | BadRequestErr(cause: Error, message: string, fields: Option<map<string, Error>>)
    | ConflictErr(cause: Error, message: string, fields: Option<map<string, Error>>)
    | ForbiddenErr(cause: Error, message: string)
    | InternalServerErr(cause: Error, message: string)
    | NotAcceptableErr(cause: Error, message: string)
    | NotFoundErr(cause: Error, message: string)
    | UnauthorizedErr(cause: Error, message: string)

  /** http.StatusText of the statuses the kinds carry. */
  const BadRequestText := "Bad Request"
  const ConflictText := "Conflict"
  const ForbiddenText := "Forbidden"
  const InternalServerText := "Internal Server Error"
  const NotAcceptableText := "Not Acceptable"
  const NotFoundText := "Not Found"
  const UnauthorizedText := "Unauthorized"

  /** The capability markers: one per kind. */
  const Markers: set<Method> := {BadRequestMethod, ConflictMethod, ForbiddenMethod,
    InternalServerMethod, NotAcceptableMethod, NotFoundMethod, UnauthorizedMethod}

  /** True for the seven typed kinds of this package. */
  predicate IsKind(e: Error)
  {
    e.BadRequestErr? || e.ConflictErr? || e.ForbiddenErr? || e.InternalServerErr?
    || e.NotAcceptableErr? || e.NotFoundErr? || e.UnauthorizedErr?
  }

  /** The method set of the value's dynamic type (pointer receivers included, since every
      constructor returns a pointer). The embedded `error` contributes only `Error()`. */
  function Methods(e: Error): (ms: set<Method>)
    ensures e.Nil? || e.Plain? || e.Validation? || e.SentinelErr? ==> ms == {}
    ensures GetFieldsMethod in ms ==> e.BadRequestErr? || e.ConflictErr? || e.Foreign?
  {
    match e
    case BadRequestErr(_, _, _) => {BadRequestMethod, GetFieldsMethod}
    case ConflictErr(_, _, _) => {ConflictMethod, GetFieldsMethod}
    case ForbiddenErr(_, _) => {ForbiddenMethod}
    case InternalServerErr(_, _) => {InternalServerMethod}
    case NotAcceptableErr(_, _) => {NotAcceptableMethod}
    case NotFoundErr(_, _) => {NotFoundMethod}
    case UnauthorizedErr(_, _) => {UnauthorizedMethod, MsgMethod, CauseMethod}
    case Wrapped(_, _) => {CauseMethod}
    case Foreign(_, ms) => ms
    case _ => {}
  }

  /** The capability markers a value carries. */
  function Capabilities(e: Error): (caps: set<Method>)
    ensures caps <= Markers && caps <= Methods(e)
  {
    Methods(e) * Markers
  }

  /** `e.Error()` returns without panicking: `e` is not nil, and nor is any cause that
      the call reaches through an embedded or wrapped error. */
  predicate Renders(e: Error)
  {
    match e
    case Nil => false
    case Wrapped(_, c) => Renders(c)
    case BadRequestErr(c, _, _) => Renders(c)
    case ConflictErr(c, _, _) => Renders(c)
    case ForbiddenErr(c, _) => Renders(c)
    case InternalServerErr(c, _) => Renders(c)
    case NotAcceptableErr(c, _) => Renders(c)
    case NotFoundErr(c, _) => Renders(c)
    case UnauthorizedErr(c, _) => Renders(c)
    case _ => true
  }

  /** Nil, or a value whose `Error()` returns. fmt would also format a value whose `Error()`
      panics (it recovers and prints a PANIC= notice); the model leaves those out. */
  predicate Printable(e: Error)
  {
    e == Nil || Renders(e)
  }

  function SentinelText(s: Sentinel): string
  {
    match s
    case ErrNoRows => "sql: no rows in result set"
    case ErrTxDone => "sql: transaction has already been committed or rolled back"
    case ErrNilVersion => "no migration"
    case ErrNoChange => "no change"
    case ErrDirtyMigration => "migration is dirty, needs a manual fix"
  }

  /** `e.Error()`. A kind renders as its cause (the embedded error), never as its own message. */
  function Text(e: Error): (t: string)
    requires Renders(e)
    ensures IsKind(e) ==> t == Text(e.cause)
  {
    match e
    case Plain(t) => t
    case Validation(_, t) => t
    case SentinelErr(s) => SentinelText(s)
    case Wrapped(m, c) => m + ": " + Text(c)
    case Foreign(t, _) => t
    case BadRequestErr(c, _, _) => Text(c)
    case ConflictErr(c, _, _) => Text(c)
    case ForbiddenErr(c, _) => Text(c)
    case InternalServerErr(c, _) => Text(c)
    case NotAcceptableErr(c, _) => Text(c)
    case NotFoundErr(c, _) => Text(c)
    case UnauthorizedErr(c, _) => Text(c)
  }

  /** What `fmt`'s %s verb prints for an error operand. */
  function FormatS(e: Error): (s: string)
    requires Printable(e)
    ensures e != Nil ==> s == Text(e)
    ensures e == Nil ==> s == "%!s(<nil>)"
  {
    if e == Nil then "%!s(<nil>)" else Text(e)
  }

  /** pkg/errors `Wrap(err, msg)` (and `Wrapf` with its message already formatted). */
  function Wrap(err: Error, msg: string): (r: Error)
    ensures err == Nil <==> r == Nil
    ensures Renders(err) ==> Renders(r) && Text(r) == msg + ": " + Text(err)
    ensures r != Nil ==> Methods(r) == {CauseMethod}
  {
    if err == Nil then Nil else Wrapped(msg, err)
  }

  /** The field map a BadRequest or Conflict takes from its cause: the map itself when the
      cause is a validation.Errors, and nil otherwise. */
  function FieldsOf(err: Error): (fields: Option<map<string, Error>>)
    ensures fields.Some? <==> err.Validation?
    ensures err.Validation? ==> fields.value == err.entries
  {
    match err
    case Validation(fs, _) => Some(fs)
    case _ => None
  }

  /** `GetFields()`, defined on ErrBadRequest and ErrConflict. */
  function GetFields(e: Error): (fields: Option<map<string, Error>>)
    requires e.BadRequestErr? || e.ConflictErr?
    ensures fields == e.fields
  {
    e.fields
  }

  function NewBadRequest(err: Error): (e: Error)
    ensures Capabilities(e) == {BadRequestMethod} && GetFieldsMethod in Methods(e)
    ensures e.BadRequestErr? && e.cause == err && e.message == BadRequestText
    ensures GetFields(e) == FieldsOf(err)
    ensures Renders(err) ==> Renders(e) && Text(e) == Text(err)
  {
    BadRequestErr(err, BadRequestText, FieldsOf(err))
  }

  function NewConflict(err: Error): (e: Error)
    ensures Capabilities(e) == {ConflictMethod} && GetFieldsMethod in Methods(e)
    ensures BadRequestMethod !in Methods(e)
    ensures e.ConflictErr? && e.cause == err && e.message == ConflictText
    ensures GetFields(e) == FieldsOf(err)
    ensures Renders(err) ==> Renders(e) && Text(e) == Text(err)
  {
    ConflictErr(err, ConflictText, FieldsOf(err))
  }

  function NewForbidden(err: Error): (e: Error)
    ensures Capabilities(e) == Methods(e) == {ForbiddenMethod}
    ensures e.ForbiddenErr? && e.cause == err && e.message == ForbiddenText
    ensures Renders(err) ==> Renders(e) && Text(e) == Text(err)
  {
    ForbiddenErr(err, ForbiddenText)
  }

  function NewInternalServer(err: Error): (e: Error)
    ensures Capabilities(e) == Methods(e) == {InternalServerMethod}
    ensures e.InternalServerErr? && e.cause == err && e.message == InternalServerText
    ensures Renders(err) ==> Renders(e) && Text(e) == Text(err)
  {
    InternalServerErr(err, InternalServerText)
  }

  function NewNotAcceptable(err: Error): (e: Error)
    ensures Capabilities(e) == Methods(e) == {NotAcceptableMethod}
    ensures e.NotAcceptableErr? && e.cause == err && e.message == NotAcceptableText
    ensures Renders(err) ==> Renders(e) && Text(e) == Text(err)
  {
    NotAcceptableErr(err, NotAcceptableText)
  }

  function NewNotFound(err: Error): (e: Error)
    ensures Capabilities(e) == Methods(e) == {NotFoundMethod}
    ensures e.NotFoundErr? && e.cause == err && e.message == NotFoundText
    ensures Renders(err) ==> Renders(e) && Text(e) == Text(err)
  {
    NotFoundErr(err, NotFoundText)
  }

  /** Every value a constructor builds carries exactly its own capability marker, and its
      capability depends on nothing but the constructor (not on the cause). */
  lemma KindsCarryOneCapability(err: Error, message: string)
    ensures Capabilities(NewBadRequest(err)) == {BadRequestMethod}
    ensures Capabilities(NewConflict(err)) == {ConflictMethod}
    ensures Capabilities(NewForbidden(err)) == {ForbiddenMethod}
    ensures Capabilities(NewInternalServer(err)) == {InternalServerMethod}
    ensures Capabilities(NewNotAcceptable(err)) == {NotAcceptableMethod}
    ensures Capabilities(NewNotFound(err)) == {NotFoundMethod}
    ensures Capabilities(UnauthorizedErr(err, message)) == {UnauthorizedMethod}
  {
  }

  /** No value the constructors build carries two capability markers. */
  lemma {:induction false} KindsAreSingleTagged(e: Error)
    requires IsKind(e)
    ensures |Capabilities(e)| == 1
  {
    var m :| m in Capabilities(e);
    assert Capabilities(e) == {m};
  }

  /** ErrUnauthorized: the only kind whose message can be changed after construction.
      `WithMessage` and `StatusOnly` assign the field through the pointer receiver and hand
      back the same pointer. */
  class UnauthorizedError {
    const cause: Error
    var message: string

    /** NewUnauthorized(err). */
    constructor (err: Error)
      ensures cause == err && message == UnauthorizedText
    {
      cause := err;
      message := UnauthorizedText;
    }

    /** The error value this pointer currently denotes, as a type switch and `Error()` see it. */
    function Value(): (e: Error)
      reads this
      ensures e.UnauthorizedErr? && e.cause == cause && e.message == message
      ensures Capabilities(e) == {UnauthorizedMethod} && MsgMethod in Methods(e)
      ensures Renders(cause) ==> Renders(e) && Text(e) == Text(cause)
    {
      UnauthorizedErr(cause, message)
    }

    /** Msg(): the current message. */
    function Msg(): (m: string)
      reads this
      ensures m == Value().message
    {
      message
    }

    /** Cause(): the wrapped error, fixed at construction. */
    function Cause(): (c: Error)
      ensures c == cause
    {
      cause
    }

    method WithMessage(m: string) returns (r: UnauthorizedError)
      modifies this
      ensures r == this
      ensures message == m && Msg() == m
      ensures Value() == UnauthorizedErr(cause, m)
    {
      message := m;
      r := this;
    }

    method StatusOnly() returns (r: UnauthorizedError)
      modifies this
      ensures r == this
      ensures message == "" && Msg() == ""
      ensures Value() == UnauthorizedErr(cause, "")
    {
      message := "";
      r := this;
    }
  }
}
