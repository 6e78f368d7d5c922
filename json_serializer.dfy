/**
 * The two custom JSON serializers: `DimensionSerializer`, which writes a Dimension as the string
 * "<width>x<height>" and reads it back with three distinct failures, and `DateTimeSerializer`,
 * which reads a date-time by trying an exact time, then a start of day, and otherwise keeps the
 * value as invalid without failing.
 */
module JsonSerializer {
  import opened Wrappers
  import opened Text
  import opened Throwables
  import opened Dimensions

  /** The one JSON token each serializer writes or reads. */
  datatype JsonValue = JsonString(text: string) | JsonNull

  // ---------------------------------------------------------------- Dimension

  function SerializeDimension(d: Dimension): (json: JsonValue)
    ensures json.JsonString?
    ensures Split(json.text, {SEPARATOR}) == [IntToString(d.width), IntToString(d.height)]
  {
    JsonString(d.ToString())
  }

  function FormatMessage(input: string): string {
    "Invalid dimension format: " + input + ". Expected format: widthxheight"
  }

  function ValuesMessage(input: string): string {
    "Invalid dimension values in: " + input + ". Width and height must be integers."
  }

  function WidthMessage(width: int): string {
    "Width must be greater than 0, but was " + IntToString(width)
  }

  function HeightMessage(height: int): string {
    "Height must be greater than 0, but was " + IntToString(height)
  }

  /** The IllegalArgumentException `require` throws: the message and no cause. */
  function Rejected(message: string): Throwable {
    Throwable(IllegalArgumentException, Some(message), None)
  }

  /** The text decodes to a Dimension: two pieces around one 'x', both Ints, both positive. */
  predicate Decodable(text: string) {
    var pieces := Split(text, {SEPARATOR});
    |pieces| == 2
    && ToIntOrNull(pieces[0]).Some? && ToIntOrNull(pieces[1]).Some?
    && ToIntOrNull(pieces[0]).value > 0 && ToIntOrNull(pieces[1]).value > 0
  }

  /**
   * `DimensionSerializer.deserialize`. The piece count is checked first; both pieces are then
   * converted before either sign is checked, and the width is checked before the height.
   */
  function DeserializeDimension(text: string): (r: Result<Dimension, Throwable>)
    ensures r.Success? <==> Decodable(text)
    ensures r.Success? ==>
      var pieces := Split(text, {SEPARATOR});
      r.value == Dimension(ToIntOrNull(pieces[0]).value, ToIntOrNull(pieces[1]).value)
    ensures r.Failure? ==> r.error.cls == IllegalArgumentException && r.error.message.Some?
    ensures |Split(text, {SEPARATOR})| != 2 ==> r == Failure(Rejected(FormatMessage(text)))
    ensures r.Failure? && r.error.cause.Some? ==>
      r.error.message == Some(ValuesMessage(text)) && r.error.cause.value.cls == NumberFormatException
  {
    var pieces := Split(text, {SEPARATOR});
    if |pieces| != 2 then Failure(Rejected(FormatMessage(text)))
    else
      match ToInt(pieces[0])
      case Failure(e) => Failure(Throwable(IllegalArgumentException, Some(ValuesMessage(text)), Some(e)))
      case Success(width) =>
        match ToInt(pieces[1])
        case Failure(e) => Failure(Throwable(IllegalArgumentException, Some(ValuesMessage(text)), Some(e)))
        case Success(height) =>
          if width <= 0 then Failure(Rejected(WidthMessage(width)))
          else if height <= 0 then Failure(Rejected(HeightMessage(height)))
          else Success(Dimension(width, height))
  }

  /** Kotlin's `String.toInt()`: `toIntOrNull` that throws a NumberFormatException instead of giving null. */
  function ToInt(s: string): (r: Result<Int32, Throwable>)
    ensures r.Success? <==> ToIntOrNull(s).Some?
    ensures r.Success? ==> r.value == ToIntOrNull(s).value
    ensures r.Failure? ==> r.error == NumberFormatFor(s)
  {
    match ToIntOrNull(s)
    case Some(v) => Success(v)
    case None => Failure(NumberFormatFor(s))
  }

  /** Decoding what was encoded gives the Dimension back whenever both sides are positive. */
  lemma {:induction false} DimensionRoundTrip(d: Dimension)
    requires d.width > 0 && d.height > 0
    ensures DeserializeDimension(SerializeDimension(d).text) == Success(d)
  {
    ParseRendered(d.width);
    ParseRendered(d.height);
  }

  /**
   * A Dimension with a non-positive side encodes to text the deserializer rejects, naming the
   * width when the width is at fault and the height only when the width is fine.
   */
  lemma {:induction false} NonPositiveRejected(d: Dimension)
    requires d.width <= 0 || d.height <= 0
    ensures DeserializeDimension(SerializeDimension(d).text)
         == Failure(Rejected(if d.width <= 0 then WidthMessage(d.width) else HeightMessage(d.height)))
  {
    ParseRendered(d.width);
    ParseRendered(d.height);
  }

  /** "800x600" decodes to 800 by 600. */
  lemma {:induction false} DecodesExample()
    ensures DeserializeDimension("800x600") == Success(Dimension(800, 600))
  {
    Rendered800();
    Rendered600();
    assert "800x600" == Dimension(800, 600).ToString();
    DimensionRoundTrip(Dimension(800, 600));
  }

  /** Three pieces are a format error, not a values error: "800x600x400" is rejected as a whole. */
  lemma {:induction false} TooManySeparators()
    ensures DeserializeDimension("800x600x400") == Failure(Rejected(FormatMessage("800x600x400")))
  {
    var D := {SEPARATOR};
    assert "800x600x400" == "800" + [SEPARATOR] + ("600" + [SEPARATOR] + "400");
    assert Free("800", D) && Free("600", D) && Free("400", D);
    SplitHead("800", SEPARATOR, "600" + [SEPARATOR] + "400", D);
    SplitHead("600", SEPARATOR, "400", D);
    SplitFree("400", D);
  }

  /** Without any 'x' the text is one piece and a format error, with no cause. */
  lemma {:induction false} MissingSeparator()
    ensures DeserializeDimension("800600") == Failure(Rejected(FormatMessage("800600")))
  {
    assert Free("800600", {SEPARATOR});
    SplitFree("800600", {SEPARATOR});
  }

  /** "-800x600" is two Ints, so the failure is the width check, reporting -800. */
  lemma {:induction false} NegativeWidth()
    ensures DeserializeDimension("-800x600") == Failure(Rejected(WidthMessage(-800)))
  {
    RenderedMinus800();
    Rendered600();
    assert "-800x600" == Dimension(-800, 600).ToString();
    NonPositiveRejected(Dimension(-800, 600));
  }

  /** The first piece that is not an Int becomes the cause of a values error. */
  lemma {:induction false} ValuesError(width: string, height: string)
    requires Free(width, {SEPARATOR}) && Free(height, {SEPARATOR})
    requires ToIntOrNull(width).None? || ToIntOrNull(height).None?
    ensures var text := width + [SEPARATOR] + height;
      DeserializeDimension(text)
      == Failure(Throwable(IllegalArgumentException, Some(ValuesMessage(text)),
                           Some(NumberFormatFor(if ToIntOrNull(width).None? then width else height))))
  {
    SplitHead(width, SEPARATOR, height, {SEPARATOR});
    SplitFree(height, {SEPARATOR});
  }

  /** A non-integer width keeps the NumberFormatException as the cause. */
  lemma {:induction false} NonIntegerWidth()
    ensures DeserializeDimension("abcx600")
         == Failure(Throwable(IllegalArgumentException, Some(ValuesMessage("abcx600")), Some(NumberFormatFor("abc"))))
  {
    var word := "abc";
    assert forall i | 0 <= i < |word| :: 'a' <= word[i] <= 'c';
    assert Free("600", {SEPARATOR});
    NotANumber(word);
    assert "abcx600" == word + [SEPARATOR] + "600";
    ValuesError(word, "600");
  }

  /** A non-integer height is reported the same way, with the height's NumberFormatException. */
  lemma {:induction false} NonIntegerHeight()
    ensures DeserializeDimension("800xabc")
         == Failure(Throwable(IllegalArgumentException, Some(ValuesMessage("800xabc")), Some(NumberFormatFor("abc"))))
  {
    var word := "abc";
    assert forall i | 0 <= i < |word| :: 'a' <= word[i] <= 'c';
    Rendered800();
    ParseRendered(800);
    assert Free("800", {SEPARATOR});
    NotANumber(word);
    assert "800xabc" == "800" + [SEPARATOR] + word;
    ValuesError("800", word);
  }

  lemma Rendered800()
    ensures IntToString(800) == "800"
  {
    assert NatToString(8) == "8";
  }

  lemma Rendered600()
    ensures IntToString(600) == "600"
  {
    assert NatToString(6) == "6";
  }

  lemma RenderedMinus800()
    ensures IntToString(-800) == "-800"
  {
    Rendered800();
  }

  // ---------------------------------------------------------------- PrecisionDateTime

  /** An instant on the UTC time line; its representation is left to the date library. */
  datatype Instant = Instant(epochSecond: int, nano: nat)

  /**
   * A date-time from the server: an exact time, a date taken as the start of its day in UTC,
   * a value that could not be parsed (with the parse error), or no value at all.
   */
  datatype PrecisionDateTime =
    | ExactTime(instant: Instant)
    | StartOfDay(instant: Instant)
    | Invalid(error: Throwable)
    | Unavailable
  {
    predicate IsInvalid() { Invalid? || Unavailable? }
  }

  /** `DateTimeSerializer.serialize`: null for an invalid value, the value's own JSON text otherwise. */
  function SerializeDateTime(value: PrecisionDateTime, asJsonString: PrecisionDateTime -> string): (json: JsonValue)
    ensures json.JsonNull? <==> value.IsInvalid()
    ensures json.JsonString? ==> json.text == asJsonString(value)
  {
    if value.Invalid? || value.Unavailable? then JsonNull else JsonString(asJsonString(value))
  }

  /**
   * `DateTimeSerializer.deserialize` over the two ISO 8601 parsers, given as functions that
   * either produce an instant or throw. Each step catches only DateTimeParseException; any other
   * exception escapes.
   */
  function DeserializeDateTime(
    text: string,
    parseExact: string -> Result<Instant, Throwable>,
    parseStartOfDay: string -> Result<Instant, Throwable>
  ): (r: Result<PrecisionDateTime, Throwable>)
    ensures parseExact(text).Success? ==> r == Success(ExactTime(parseExact(text).value))
    ensures r.Success? && r.value.StartOfDay? ==>
      parseExact(text).Failure? && parseExact(text).error.cls == DateTimeParseException
      && parseStartOfDay(text) == Success(r.value.instant)
    ensures r.Success? && r.value.Invalid? ==>
      parseExact(text).Failure? && parseStartOfDay(text).Failure?
      && r.value.error == parseStartOfDay(text).error && r.value.error.cls == DateTimeParseException
    ensures r.Success? ==> !r.value.Unavailable?
    ensures r.Failure? ==> r.error.cls != DateTimeParseException
    // Case by case, every outcome is forced: the start-of-day fallback, the Invalid value and
    // the exception that escapes.
    ensures parseExact(text).Failure? && parseExact(text).error.cls != DateTimeParseException
      ==> r == Failure(parseExact(text).error)
    ensures parseExact(text).Failure? && parseExact(text).error.cls == DateTimeParseException
      && parseStartOfDay(text).Success?
      ==> r == Success(StartOfDay(parseStartOfDay(text).value))
    ensures parseExact(text).Failure? && parseExact(text).error.cls == DateTimeParseException
      && parseStartOfDay(text).Failure? && parseStartOfDay(text).error.cls == DateTimeParseException
      ==> r == Success(Invalid(parseStartOfDay(text).error))
    ensures parseExact(text).Failure? && parseExact(text).error.cls == DateTimeParseException
      && parseStartOfDay(text).Failure? && parseStartOfDay(text).error.cls != DateTimeParseException
      ==> r == Failure(parseStartOfDay(text).error)
  {
    match parseExact(text)
    case Success(instant) => Success(ExactTime(instant))
    case Failure(first) =>
      if first.cls != DateTimeParseException then Failure(first)
      else
        match parseStartOfDay(text)
        case Success(instant) => Success(StartOfDay(instant))
        case Failure(second) =>
          if second.cls == DateTimeParseException then Success(Invalid(second)) else Failure(second)
  }

  /**
   * When both parsers only ever fail with parse errors, deserializing never fails, and what it
   * produces serializes to null exactly when neither parser accepted the text.
   */
  lemma {:induction false} DateTimeNeverThrows(
    text: string,
    parseExact: string -> Result<Instant, Throwable>,
    parseStartOfDay: string -> Result<Instant, Throwable>,
    asJsonString: PrecisionDateTime -> string
  )
    requires parseExact(text).Failure? ==> parseExact(text).error.cls == DateTimeParseException
    requires parseStartOfDay(text).Failure? ==> parseStartOfDay(text).error.cls == DateTimeParseException
    ensures DeserializeDateTime(text, parseExact, parseStartOfDay).Success?
    ensures SerializeDateTime(DeserializeDateTime(text, parseExact, parseStartOfDay).value, asJsonString).JsonNull?
        <==> parseExact(text).Failure? && parseStartOfDay(text).Failure?
  {
  }
}
