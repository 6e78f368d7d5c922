/**
 * The JVM exceptions the modelled code throws, catches or keeps as a cause. Only their class,
 * message and cause matter to the library, so that is all this record holds.
 */
module Throwables {
  import opened Wrappers

  /**
   * The exception classes the library tells apart in its `catch` clauses. `IOException` stands
   * for the whole IOException family (`SocketTimeoutException`, `UnknownHostException`, ...),
   * since `catch (e: IOException)` catches every subclass; `OtherException` never names one of
   * those subclasses.
   */
  datatype ExceptionClass =
    | IOException
    | IllegalArgumentException
    | NumberFormatException
    | DateTimeParseException
    | OtherException(name: string)

  datatype Throwable = Throwable(cls: ExceptionClass, message: Option<string>, cause: Option<Throwable>) {

    /** `catch (e: C)` catches subclasses too: a NumberFormatException is an IllegalArgumentException. */
    predicate IsA(c: ExceptionClass) {
      cls == c || (c == IllegalArgumentException && cls == NumberFormatException)
    }
  }

  function ClassName(c: ExceptionClass): string {
    match c
    case IOException => "java.io.IOException"
    case IllegalArgumentException => "java.lang.IllegalArgumentException"
    case NumberFormatException => "java.lang.NumberFormatException"
    case DateTimeParseException => "java.time.format.DateTimeParseException"
    case OtherException(name) => name
  }

  /**
   * `Throwable.toString()`: the class name, followed by ": " and the message when there is one.
   * This is the message an exception built only from a cause receives.
   */
  function Describe(t: Throwable): (s: string)
    ensures t.message.None? ==> s == ClassName(t.cls)
    ensures t.message.Some? ==> |s| == |ClassName(t.cls)| + 2 + |t.message.value|
    ensures t.message.Some? ==> s[..|ClassName(t.cls)|] == ClassName(t.cls) && s[|ClassName(t.cls)| + 2..] == t.message.value
    ensures t.message.Some? ==> s[|ClassName(t.cls)|..|ClassName(t.cls)| + 2] == ": "
  {
    match t.message
    case None => ClassName(t.cls)
    case Some(m) => ClassName(t.cls) + ": " + m
  }

  /** The exception `String.toInt()` throws for text that is not a 32-bit decimal integer. */
  function NumberFormatFor(input: string): Throwable {
    Throwable(NumberFormatException, Some("For input string: \"" + input + "\""), None)
  }
}
