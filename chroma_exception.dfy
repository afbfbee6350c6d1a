/** `ChromaException`: the exception hierarchy the API client throws for server errors, the
    dispatch from a server error type name to a subclass (`throwSpecific`) and the guess of a type
    name from a bare message (`inferTypeFromMessage`). */
module ChromaException {
  import opened Strings

  /** The class of a thrown exception: one of the five subclasses, or ChromaException itself. */
  datatype Kind = NotFound | Value | UniqueConstraint | Dimensionality | Type | Base

  datatype ChromaException = ChromaException(kind: Kind, message: string, code: int)

  /** The server error type name each subclass stands for. */
  function TypeName(k: Kind): string
    requires k != Base
  {
    match k
    case NotFound => "NotFoundError"
    case Value => "ValueError"
    case UniqueConstraint => "UniqueConstraintError"
    case Dimensionality => "DimensionalityError"
    case Type => "TypeError"
  }

  const SpecificTypes: set<string> :=
    {"NotFoundError", "ValueError", "UniqueConstraintError", "DimensionalityError", "TypeError"}

  /** The exception `throwSpecific($message, $type, $code)` throws: a subclass exactly when the
      type name is one of the five it lists, always with the message and code untouched. */
  function ThrowSpecific(message: string, errorType: string, code: int): (e: ChromaException)
    ensures e.message == message && e.code == code
    ensures e.kind != Base <==> errorType in SpecificTypes
    ensures e.kind != Base ==> TypeName(e.kind) == errorType
  {
    var kind :=
      if errorType == "NotFoundError" then NotFound
      else if errorType == "ValueError" then Value
      else if errorType == "UniqueConstraintError" then UniqueConstraint
      else if errorType == "DimensionalityError" then Dimensionality
      else if errorType == "TypeError" then Type
      else Base;
    ChromaException(kind, message, code)
  }

  const InferredTypes: set<string> :=
    {"NotFoundError", "UniqueConstraintError", "ValueError", "DimensionalityError", "UnknownError"}

  /** `inferTypeFromMessage`: case-sensitive keyword search in a fixed order, first hit wins. */
  function InferTypeFromMessage(message: string): (t: string)
    ensures t in InferredTypes && t != "TypeError"
    ensures t == "NotFoundError" <==> Contains(message, "NotFoundError")
    ensures t == "UniqueConstraintError" <==>
      !Contains(message, "NotFoundError") && Contains(message, "UniqueConstraintError")
    ensures t == "ValueError" <==>
      !Contains(message, "NotFoundError") && !Contains(message, "UniqueConstraintError")
      && Contains(message, "ValueError")
    ensures t == "DimensionalityError" <==>
      !Contains(message, "NotFoundError") && !Contains(message, "UniqueConstraintError")
      && !Contains(message, "ValueError") && Contains(message, "dimensionality")
  {
    if Contains(message, "NotFoundError") then "NotFoundError"
    else if Contains(message, "UniqueConstraintError") then "UniqueConstraintError"
    else if Contains(message, "ValueError") then "ValueError"
    else if Contains(message, "dimensionality") then "DimensionalityError"
    else "UnknownError"
  }

  /** An inferred type never selects ChromaTypeException, and "UnknownError" falls through to the
      base class. */
  lemma InferredKindIsNeverType(message: string, code: int)
    ensures ThrowSpecific(message, InferTypeFromMessage(message), code).kind != Type
    ensures InferTypeFromMessage(message) == "UnknownError" ==>
      ThrowSpecific(message, InferTypeFromMessage(message), code).kind == Base
  {
  }

  /** Only the lower-case keyword counts: "Dimensionality" alone is not recognised. */
  lemma CapitalisedDimensionalityIsUnknown()
    ensures InferTypeFromMessage("Dimensionality") == "UnknownError"
  {
    AbsentFirstChar("Dimensionality", "NotFoundError");
    AbsentFirstChar("Dimensionality", "UniqueConstraintError");
    AbsentFirstChar("Dimensionality", "ValueError");
    AbsentFirstChar("Dimensionality", "dimensionality");
  }
}
