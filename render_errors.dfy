/**
 * What the DocxTemplater node throws when `doc.renderAsync(context)` rejects.
 * A docxtemplater "Multi error" that wraps exactly one error is unwrapped:
 * the node error takes that inner error's message and description. Every
 * other error keeps its own message and gets a generic description.
 */
module RenderErrors {
  import opened Wrappers

  /** `properties.rootError` of an inner error: the exception thrown by the expression parser. */
  datatype RootError = RootError(message: Option<string>, description: Option<string>)

  /** `properties` of an inner error. */
  datatype InnerProperties = InnerProperties(rootError: Option<RootError>, explanation: Option<string>)

  /** One of the errors a "Multi error" carries in `properties.errors`. */
  datatype InnerError = InnerError(message: string, properties: Option<InnerProperties>)

  /** The error `renderAsync` rejects with. */
  datatype RenderError = RenderError(name: string, message: string, errors: seq<InnerError>)

  /**
   * `new NodeOperationError(node, cause, {itemIndex, message, description})`;
   * an absent `message` leaves the node error with the cause's own message.
   */
  datatype OperationError = OperationError(
    cause: RenderError, itemIndex: nat, message: Option<string>, description: Option<string>)

  const GenericDescription := "See the N8N logs for more details on the error"

  /** A docxtemplater "Multi error" that wraps exactly one error. */
  predicate IsSingleMultiError(e: RenderError): (b: bool)
    ensures b ==> e.name == "TemplateError" && |e.errors| == 1
    ensures e.message != "Multi error" ==> !b
  {
    e.name == "TemplateError" && e.message == "Multi error" && |e.errors| == 1
  }

  /** `properties?.rootError` of an inner error, with `?.` at every step. */
  function RootOf(inner: InnerError): Option<RootError> {
    match inner.properties
    case Some(p) => p.rootError
    case None => None
  }

  /** `properties?.explanation` of an inner error. */
  function ExplanationOf(inner: InnerError): Option<string> {
    match inner.properties
    case Some(p) => p.explanation
    case None => None
  }

  /**
   * The classifier of lines 314-335 as written. Its result is what the
   * `.catch` handler throws: a node error, or a TypeError (naming the
   * property it failed to read) when `properties?.rootError.message` or
   * `properties.explanation` is read through an undefined value.
   */
  function ClassifyAsWritten(e: RenderError, i: nat): (r: Result<OperationError, string>)
    ensures r.Failure? ==> IsSingleMultiError(e) && RootOf(e.errors[0]).None?
    ensures r.Success? ==> r.value.itemIndex == i && r.value.cause == e
  {
    if IsSingleMultiError(e) then
      var inner := e.errors[0];
      match inner.properties
      case None =>
        // `properties?.rootError.description` is undefined, and then `properties.explanation` throws
        Failure("explanation")
      case Some(p) =>
        match p.rootError
        case None =>
          // `properties?.rootError.message` reads `message` of undefined
          Failure("message")
        case Some(root) =>
          Success(OperationError(e, i, Some(root.message.GetOr(inner.message)),
            if root.description.Some? then root.description else p.explanation))
    else
      Success(OperationError(e, i, None, Some(GenericDescription)))
  }

  /**
   * The classifier as evidently intended, reading every optional property
   * with `?.`: a single wrapped error is always unwrapped.
   */
  function Classify(e: RenderError, i: nat): (r: OperationError)
    ensures r.itemIndex == i && r.cause == e
    ensures !IsSingleMultiError(e) ==> r.message.None? && r.description == Some(GenericDescription)
    ensures IsSingleMultiError(e) ==> r.message.Some?
    ensures IsSingleMultiError(e) && RootOf(e.errors[0]).Some? && RootOf(e.errors[0]).value.message.Some?
            ==> r.message == RootOf(e.errors[0]).value.message
    ensures IsSingleMultiError(e) && (RootOf(e.errors[0]).None? || RootOf(e.errors[0]).value.message.None?)
            ==> r.message == Some(e.errors[0].message)
    ensures IsSingleMultiError(e) && RootOf(e.errors[0]).Some? && RootOf(e.errors[0]).value.description.Some?
            ==> r.description == RootOf(e.errors[0]).value.description
    ensures IsSingleMultiError(e) && (RootOf(e.errors[0]).None? || RootOf(e.errors[0]).value.description.None?)
            ==> r.description == ExplanationOf(e.errors[0])
  {
    if IsSingleMultiError(e) then
      var inner := e.errors[0];
      var root := RootOf(inner);
      var message := if root.Some? then root.value.message.GetOr(inner.message) else inner.message;
      var description := if root.Some? && root.value.description.Some? then root.value.description
                         else ExplanationOf(inner);
      OperationError(e, i, Some(message), description)
    else
      OperationError(e, i, None, Some(GenericDescription))
  }

  /** Wherever the classifier as written does not crash, it agrees with the corrected one. */
  lemma CorrectedAgreesWithWritten(e: RenderError, i: nat)
    ensures ClassifyAsWritten(e, i).Success? ==> ClassifyAsWritten(e, i).value == Classify(e, i)
    ensures ClassifyAsWritten(e, i).Failure? <==> IsSingleMultiError(e) && RootOf(e.errors[0]).None?
  {
  }

  /**
   * The classifier as written throws a TypeError instead of unwrapping a
   * single wrapped error that carries properties but no `rootError`; the
   * corrected one reports that error's message and explanation. Whether
   * `renderAsync` rejects with such an error is up to docxtemplater.
   */
  lemma WrittenCrashesWithoutRootError(i: nat, message: string, explanation: string)
    ensures var inner := InnerError(message, Some(InnerProperties(None, Some(explanation))));
            var e := RenderError("TemplateError", "Multi error", [inner]);
            && ClassifyAsWritten(e, i) == Failure("message")
            && Classify(e, i) == OperationError(e, i, Some(message), Some(explanation))
  {
  }
}
