/** `ChromaApiExceptionFactory::make`: builds (and returns, does not throw) the exception for a
    server error type name. It knows fewer subclasses than `ChromaException::throwSpecific`. */
module ChromaApiExceptionFactory {
  import ChromaException

  datatype Kind = NotFound | Value | UniqueConstraint | Api

  datatype ChromaApiException = ChromaApiException(kind: Kind, message: string, code: int)

  function Make(message: string, errorType: string, code: int): (e: ChromaApiException)
    ensures e.message == message && e.code == code
    ensures e.kind == NotFound <==> errorType == "NotFoundError"
    ensures e.kind == Value <==> errorType == "ValueError"
    ensures e.kind == UniqueConstraint <==> errorType == "UniqueConstraintError"
  {
    var kind :=
      if errorType == "NotFoundError" then NotFound
      else if errorType == "ValueError" then Value
      else if errorType == "UniqueConstraintError" then UniqueConstraint
      else Api;
    ChromaApiException(kind, message, code)
  }

  /** How the factory's classes correspond to `throwSpecific`'s: the dimensionality and type
      subclasses collapse into the generic ChromaApiException. */
  function Coarsen(k: ChromaException.Kind): Kind {
    match k
    case NotFound => NotFound
    case Value => Value
    case UniqueConstraint => UniqueConstraint
    case _ => Api
  }

  /** For every type name the factory picks the coarsened class of `throwSpecific`, with the same
      message and code. */
  lemma AgreesWithThrowSpecific(message: string, errorType: string, code: int)
    ensures Make(message, errorType, code)
      == ChromaApiException(
           Coarsen(ChromaException.ThrowSpecific(message, errorType, code).kind), message, code)
  {
  }

  /** The two names `throwSpecific` maps to subclasses of their own fall to the generic class. */
  lemma DimensionalityAndTypeAreGeneric(message: string, code: int)
    ensures Make(message, "DimensionalityError", code).kind == Api
    ensures Make(message, "TypeError", code).kind == Api
  {
  }
}
