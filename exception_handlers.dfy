/** The REST exception handler (backend/core/exceptions/handlers.py):
    classifies an exception and shapes the error body. The framework's
    default handler is an outside call; its answer (the status of the
    response it builds, or none) is an input. Each exception is taken to
    be of exactly one of the classes the handler tests for. */
module ExceptionHandlers {
  import opened Common

  /** The exception behind a WrappedAttributeError: whether it is an
      AttributeError, and its `str()`. */
  datatype Inner = Inner(isAttributeError: bool, text: string)

  datatype Kind =
    | AuthenticationFailed
    | WrappedAttributeError(cause: Option<Inner>, context: Option<Inner>)
    | AttributeError
    | VotingError(statusCode: int, votingMessage: string)
    | OtherKind

  /** An exception's `detail` attribute, when it has one. */
  datatype Detail<D> = NoDetail | DictDetail(entries: map<string, D>) | ListDetail(items: seq<D>) | OtherDetail(text: string)

  /** An exception: its kind, class name, `str()` and detail. */
  datatype Exc<D> = Exc(kind: Kind, className: string, text: string, detail: Detail<D>)

  /** The "errors" entry: the detail dict, or `{"detail": list}`. */
  datatype Errors<D> = ErrorsDict(entries: map<string, D>) | ErrorsUnderDetail(items: seq<D>)

  datatype Body<D> = Body(error: string, errorCode: string, statusCode: int,
                          errors: Option<Errors<D>>, fieldErrors: Option<map<string, D>>)

  datatype Response<D> = Response(status: int, body: Body<D>)

  function AuthFailedResponse<D>(): Response<D> {
    Response(401, Body("Authentication failed", "AuthenticationFailed", 401, None, None))
  }

  const InternalErrorText := "An internal server error occurred"

  function InternalErrorResponse<D>(): Response<D> {
    Response(500, Body(InternalErrorText, "InternalServerError", 500, None, None))
  }

  /** The wrapped exception is an AttributeError about header parsing: its
      lowercased message mentions any of the three words. */
  predicate WrappedIsAuth(cause: Option<Inner>, context: Option<Inner>) {
    var original := if cause.Some? then cause else context;
    original.Some? && original.value.isAttributeError &&
    var m := Lower(original.value.text);
    Contains(m, "split") || Contains(m, "authorization") || Contains(m, "nonetype")
  }

  /** A bare AttributeError needs "split" and one of the other two words. */
  predicate BareIsAuth(text: string) {
    var m := Lower(text);
    Contains(m, "split") && (Contains(m, "authorization") || Contains(m, "nonetype"))
  }

  /** The entries of a detail dict other than "detail". */
  function FieldErrors<D>(entries: map<string, D>): (r: map<string, D>)
    ensures r.Keys == entries.Keys - {"detail"}
    ensures forall k :: k in r ==> r[k] == entries[k]
  {
    map k | k in entries && k != "detail" :: entries[k]
  }

  /** The body built from the default handler's response of status `status`. */
  function DetailBody<D>(exc: Exc<D>, status: int): Body<D> {
    match exc.detail
    case NoDetail => Body(exc.text, exc.className, status, None, None)
    case DictDetail(entries) =>
      var fe := FieldErrors(entries);
      Body(exc.text, exc.className, status, Some(ErrorsDict(entries)), if fe != map[] then Some(fe) else None)
    case ListDetail(items) => Body(exc.text, exc.className, status, Some(ErrorsUnderDetail(items)), None)
    case OtherDetail(text) => Body(text, exc.className, status, None, None)
  }

  /** custom_exception_handler, given the status of the default handler's
      response (None when it gives none). */
  function Handle<D>(exc: Exc<D>, default: Option<int>): Response<D> {
    if exc.kind.AuthenticationFailed? then AuthFailedResponse()
    else if exc.kind.WrappedAttributeError? && WrappedIsAuth(exc.kind.cause, exc.kind.context) then AuthFailedResponse()
    else if exc.kind.AttributeError? && BareIsAuth(exc.text) then AuthFailedResponse()
    else if exc.kind.VotingError? then
      Response(exc.kind.statusCode, Body(exc.kind.votingMessage, exc.className, exc.kind.statusCode, None, None))
    else if default.None? then InternalErrorResponse()
    else Response(default.value, DetailBody(exc, default.value))
  }

  /** An authentication failure is always 401, whatever the default
      handler would say. */
  lemma AuthenticationFailedIs401<D>(exc: Exc<D>, default: Option<int>)
    requires exc.kind.AuthenticationFailed?
    ensures Handle(exc, default) == AuthFailedResponse()
  {
  }

  /** A wrapped attribute error becomes 401 exactly when its original
      exception (the cause, else the context) is an AttributeError about
      header parsing; any other one is handled like an ordinary exception. */
  lemma WrappedAttributeErrorRule<D>(exc: Exc<D>, default: Option<int>)
    requires exc.kind.WrappedAttributeError?
    ensures WrappedIsAuth(exc.kind.cause, exc.kind.context) ==> Handle(exc, default) == AuthFailedResponse()
    ensures !WrappedIsAuth(exc.kind.cause, exc.kind.context) ==>
      Handle(exc, default) == (if default.None? then InternalErrorResponse()
                               else Response(default.value, DetailBody(exc, default.value)))
    ensures exc.kind.cause.None? && exc.kind.context.None? ==> !WrappedIsAuth(exc.kind.cause, exc.kind.context)
  {
  }

  /** The bare rule is stricter than the wrapped one: every message it
      accepts the wrapped rule accepts, not the other way round. */
  lemma BareRuleStricter(text: string)
    ensures BareIsAuth(text) ==> WrappedIsAuth(Some(Inner(true, text)), None)
  {
  }

  /** "nonetype" alone passes the wrapped rule and fails the bare one. */
  lemma NonetypeAloneDiffers()
    ensures WrappedIsAuth(Some(Inner(true, "nonetype")), None)
    ensures !BareIsAuth("nonetype")
  {
    NonetypeLowered();
    NotContainedWithoutFirst("nonetype", "split");
  }

  lemma NonetypeLowered()
    ensures Lower("nonetype") == "nonetype"
    ensures Contains("nonetype", "nonetype")
  {
    LowerOfLowercase("nonetype");
    assert OccursAt("nonetype", "nonetype", 0);
  }

  /** A bare AttributeError about header parsing is 401; otherwise it goes
      the ordinary way. */
  lemma AttributeErrorRule<D>(exc: Exc<D>, default: Option<int>)
    requires exc.kind.AttributeError?
    ensures BareIsAuth(exc.text) ==> Handle(exc, default) == AuthFailedResponse()
    ensures !BareIsAuth(exc.text) ==>
      Handle(exc, default) == (if default.None? then InternalErrorResponse()
                               else Response(default.value, DetailBody(exc, default.value)))
  {
  }

  /** A voting error carries its own status, message and class name,
      whatever the default handler says. */
  lemma VotingErrorRule<D>(exc: Exc<D>, default: Option<int>)
    requires exc.kind.VotingError?
    ensures var r := Handle(exc, default);
      r.status == exc.kind.statusCode && r.body.statusCode == exc.kind.statusCode &&
      r.body.error == exc.kind.votingMessage && r.body.errorCode == exc.className
  {
  }

  /** An exception the default handler does not know becomes a generic
      500 that reveals nothing of the exception. */
  lemma UnhandledIsGeneric500<D>(exc1: Exc<D>, exc2: Exc<D>)
    requires exc1.kind.OtherKind? && exc2.kind.OtherKind?
    ensures Handle(exc1, None) == Handle(exc2, None) == InternalErrorResponse()
    ensures Handle(exc1, None).status == 500
  {
  }

  /** The body the default handler's response receives: its status, the
      class name, and the detail shaped by its kind; field errors appear
      only when the dict has an entry other than "detail". */
  lemma DetailShaping<D>(exc: Exc<D>, status: int)
    ensures var b := DetailBody(exc, status);
      && b.statusCode == status && b.errorCode == exc.className
      && (exc.detail.NoDetail? ==> b.error == exc.text && b.errors.None? && b.fieldErrors.None?)
      && (exc.detail.ListDetail? ==> b.errors == Some(ErrorsUnderDetail(exc.detail.items)) && b.fieldErrors.None?)
      && (exc.detail.OtherDetail? ==> b.error == exc.detail.text && b.errors.None?)
      && (exc.detail.DictDetail? ==>
            b.errors == Some(ErrorsDict(exc.detail.entries)) &&
            (b.fieldErrors.Some? <==> exists k :: k in exc.detail.entries && k != "detail") &&
            (b.fieldErrors.Some? ==> b.fieldErrors.value == FieldErrors(exc.detail.entries)))
  {
    if exc.detail.DictDetail? {
      var fe := FieldErrors(exc.detail.entries);
      if exists k :: k in exc.detail.entries && k != "detail" {
        var k :| k in exc.detail.entries && k != "detail";
        assert k in fe;
      }
    }
  }
}
