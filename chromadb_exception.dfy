/** `ChromaDBException`: an exception built from a `contents` array whose 'message' is a string or
    a list of strings and whose 'code' is a string, an integer or null. */
module ChromaDBException {
  import opened Wrappers
  import opened Strings
  import Php

  /** The 'message' entry; `Missing` stands for null or an absent key. */
  datatype MessageValue = Missing | Text(s: string) | Lines(lines: seq<string>)

  /** The 'code' entry. */
  datatype Code = NullCode | IntCode(i: int) | StringCode(s: string)

  datatype Contents = Contents(message: MessageValue, code: Code)

  datatype ChromaDBException = ChromaDBException(contents: Contents, message: string)

  predicate MessageTruthy(m: MessageValue) {
    match m
    case Missing => false
    case Text(s) => Php.StringTruthy(s)
    case Lines(lines) => |lines| > 0
  }

  /** `(string)$code`. */
  function CodeString(c: Code): string {
    match c
    case NullCode => ""
    case IntCode(i) => IntToString(i)
    case StringCode(s) => s
  }

  /** The constructor: a truthy message, else the code as a string when that is truthy, else
      'Unknown error'; a list message is joined with newlines. */
  function New(contents: Contents): (e: ChromaDBException)
    ensures e.contents == contents
    ensures MessageTruthy(contents.message) && contents.message.Text? ==>
      e.message == contents.message.s
    ensures MessageTruthy(contents.message) && contents.message.Lines? ==>
      e.message == Join(contents.message.lines, "\n")
    ensures !MessageTruthy(contents.message) && Php.StringTruthy(CodeString(contents.code)) ==>
      e.message == CodeString(contents.code)
    ensures !MessageTruthy(contents.message) && !Php.StringTruthy(CodeString(contents.code)) ==>
      e.message == "Unknown error"
  {
    var first := if MessageTruthy(contents.message) then contents.message
                 else Text(CodeString(contents.code));
    var chosen := if MessageTruthy(first) then first else Text("Unknown error");
    var message := match chosen
      case Lines(lines) => Join(lines, "\n")
      case Text(s) => s
      case Missing => "";
    ChromaDBException(contents, message)
  }

  /** `getErrorMessage`: the message the constructor settled on. */
  function GetErrorMessage(e: ChromaDBException): string {
    e.message
  }

  /** `getErrorCode`: the 'code' entry exactly as given. */
  function GetErrorCode(e: ChromaDBException): Code {
    e.contents.code
  }

  /** Code 0 is as falsy as no code at all. */
  lemma ZeroCodeIsUnknown(m: MessageValue)
    requires !MessageTruthy(m)
    ensures GetErrorMessage(New(Contents(m, IntCode(0)))) == "Unknown error"
    ensures GetErrorMessage(New(Contents(m, NullCode))) == "Unknown error"
    ensures GetErrorCode(New(Contents(m, IntCode(0)))) == IntCode(0)
  {
    assert IntToString(0) == "0";
  }

  /** A non-zero integer code stands in for a falsy message, in decimal. */
  lemma NonZeroCodeIsMessage(m: MessageValue, code: int)
    requires !MessageTruthy(m) && code != 0
    ensures ParseInt(GetErrorMessage(New(Contents(m, IntCode(code))))) == Some(code)
  {
    IntToStringRoundTrip(code);
    IntToStringRoundTrip(0);
  }
}
