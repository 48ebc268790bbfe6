/**
 * The decisions taken by the three menu actions of NetworkVisualizer on one
 * answer of their dialog: "Adjust Query Timer...", "Open Link..." and
 * "Open File...".
 */
module InputDecisions {
  import opened Wrappers
  import opened JavaText

  /** The entries of the unit combo box. */
  datatype TimeUnit = Seconds | Minutes

  /** The query interval the application starts with: five minutes. */
  const DefaultQueryInterval: int := 300
  const MinQueryInterval: int := 1
  const MaxQueryInterval: int := 300

  /** The feed loaded when the link dialog is confirmed with a blank field. */
  const DefaultFeedUrl: string := "https://earthquake.usgs.gov/earthquakes/feed/v1.0/summary/2.5_day.geojson"
  const JsonSuffix: string := ".json"

  /**
   * The outcome of one confirmed interval dialog. OutOfRange carries the
   * converted value, which the action stores before rejecting it.
   */
  datatype IntervalDecision =
    | Accepted(seconds: int)
    | EmptyInput
    | NotANumber
    | OutOfRange(seconds: int)

  /** A value in the chosen unit converted to seconds, on mathematical integers. */
  function ToSeconds(value: int, unit: TimeUnit): (r: int)
    ensures unit == Seconds ==> r == value
    ensures unit == Minutes ==> r % 60 == 0 && r / 60 == value
  {
    if unit == Minutes then value * 60 else value
  }

  /** The range check: 1 second to 5 minutes, both inclusive. */
  function Classify(seconds: int): (d: IntervalDecision)
    ensures d.Accepted? <==> MinQueryInterval <= seconds <= MaxQueryInterval
    ensures d.Accepted? || d.OutOfRange?
    ensures d.seconds == seconds
  {
    if MinQueryInterval <= seconds <= MaxQueryInterval then Accepted(seconds) else OutOfRange(seconds)
  }

  /**
   * The interval dialog: the text is trimmed, an empty text is refused before
   * parsing, a number in the chosen unit is converted to seconds and then
   * range-checked.
   */
  function ValidateInterval(text: string, unit: TimeUnit): (d: IntervalDecision)
    ensures d == EmptyInput <==> IsBlank(text)
    ensures d.Accepted? ==> MinQueryInterval <= d.seconds <= MaxQueryInterval
    ensures d.OutOfRange? ==> !(MinQueryInterval <= d.seconds <= MaxQueryInterval)
    ensures d == NotANumber <==> !IsBlank(text) && ParseInt(Trim(text)).None?
    ensures d.Accepted? || d.OutOfRange? ==>
      ParseInt(Trim(text)).Some? && d.seconds == ToSeconds(ParseInt(Trim(text)).value, unit)
    ensures unit == Minutes && (d.Accepted? || d.OutOfRange?) ==> d.seconds % 60 == 0
  {
    TrimEmptyIffBlank(text);
    var t := Trim(text);
    if t == [] then EmptyInput
    else
      match ParseInt(t)
      case None => NotANumber
      case Some(v) => Classify(ToSeconds(v, unit))
  }

  /** Surrounding blanks never change the decision. */
  lemma IntervalIgnoresPadding(text: string, unit: TimeUnit)
    ensures ValidateInterval(Trim(text), unit) == ValidateInterval(text, unit)
  {
    TrimIdempotent(text);
  }

  /**
   * For the text of any int n, the dialog accepts exactly when n in the chosen
   * unit is between 1 and 300 seconds, and otherwise reports it out of range.
   */
  lemma ValidateDecimal(n: int, unit: TimeUnit)
    requires MinInt <= n <= MaxInt
    ensures ValidateInterval(Decimal(n), unit) == Classify(ToSeconds(n, unit))
    ensures ValidateInterval(Decimal(n), unit).Accepted? <==> 1 <= ToSeconds(n, unit) <= 300
  {
    TrimUntrimmedEnds(Decimal(n));
    ParseDecimal(n);
  }

  /** Five minutes is the largest interval the dialog accepts. */
  lemma FiveMinutesAccepted()
    ensures ValidateInterval("5", Minutes) == Accepted(300)
  {
    assert Decimal(5) == "5";
    ValidateDecimal(5, Minutes);
  }

  /** One second is the smallest interval the dialog accepts. */
  lemma OneSecondAccepted()
    ensures ValidateInterval("1", Seconds) == Accepted(1)
  {
    assert Decimal(1) == "1";
    ValidateDecimal(1, Seconds);
  }

  /** The text is trimmed before it is parsed. */
  lemma PaddedFiveMinutesAccepted()
    ensures ValidateInterval(" 5 ", Minutes) == Accepted(300)
  {
    assert TrimStartIndex(" 5 ") == 1 && TrimEndIndex(" 5 ") == 2;
    IntervalIgnoresPadding(" 5 ", Minutes);
    FiveMinutesAccepted();
  }

  /** Answers just outside 1 second to 5 minutes, in seconds. */
  lemma OutOfRangeSeconds()
    ensures ValidateInterval("301", Seconds) == OutOfRange(301)
    ensures ValidateInterval("0", Seconds) == OutOfRange(0)
  {
    assert DigitsOf(30) == "30";
    assert Decimal(301) == "301";
    ValidateDecimal(301, Seconds);
    assert Decimal(0) == "0";
    ValidateDecimal(0, Seconds);
  }

  /** Six minutes is too long. */
  lemma SixMinutesOutOfRange()
    ensures ValidateInterval("6", Minutes) == OutOfRange(360)
  {
    assert Decimal(6) == "6";
    ValidateDecimal(6, Minutes);
  }

  /** A negative count parses, and is then refused by the range check. */
  lemma NegativeMinuteOutOfRange()
    ensures ValidateInterval("-1", Minutes) == OutOfRange(-60)
  {
    assert Decimal(-1) == "-1";
    ValidateDecimal(-1, Minutes);
  }

  /** Blank answers are refused before any parsing. */
  lemma BlankAnswersEmpty()
    ensures ValidateInterval("", Seconds) == EmptyInput
    ensures ValidateInterval("   ", Minutes) == EmptyInput
  {
    assert IsBlank("   ");
  }

  /** A word is not a number. */
  lemma WordNotANumber()
    ensures ValidateInterval("five", Minutes) == NotANumber
  {
    TrimUntrimmedEnds("five");
    assert !IsDigit("five"[0]);
  }

  /** A sign alone is not a number. */
  lemma SignAloneNotANumber()
    ensures ValidateInterval("+", Seconds) == NotANumber
  {
    TrimUntrimmedEnds("+");
  }

  /** The conversion as the source writes it: `timeValue * 60` in 32-bit int arithmetic. */
  function ToSecondsAsWritten(value: int, unit: TimeUnit): (r: int)
    ensures MinInt <= ToSeconds(value, unit) <= MaxInt ==> r == ToSeconds(value, unit)
    ensures unit == Minutes ==> MinInt <= r <= MaxInt
  {
    if unit == Minutes then Int32Wrap(value * 60) else value
  }

  /** The interval dialog with the wrapping conversion. */
  function ValidateIntervalAsWritten(text: string, unit: TimeUnit): (d: IntervalDecision)
    ensures d.Accepted? ==> MinQueryInterval <= d.seconds <= MaxQueryInterval
    ensures d.OutOfRange? ==> !(MinQueryInterval <= d.seconds <= MaxQueryInterval)
    ensures d == EmptyInput <==> IsBlank(text)
    ensures d == NotANumber <==> !IsBlank(text) && ParseInt(Trim(text)).None?
    ensures d.Accepted? || d.OutOfRange? ==>
      ParseInt(Trim(text)).Some? && d.seconds == ToSecondsAsWritten(ParseInt(Trim(text)).value, unit)
  {
    TrimEmptyIffBlank(text);
    var t := Trim(text);
    if t == [] then EmptyInput
    else
      match ParseInt(t)
      case None => NotANumber
      case Some(v) => Classify(ToSecondsAsWritten(v, unit))
  }

  /** The written conversion on the text of any int n. */
  lemma ValidateDecimalAsWritten(n: int, unit: TimeUnit)
    requires MinInt <= n <= MaxInt
    ensures ValidateIntervalAsWritten(Decimal(n), unit) == Classify(ToSecondsAsWritten(n, unit))
  {
    TrimUntrimmedEnds(Decimal(n));
    ParseDecimal(n);
  }

  /** The two conversions agree whenever the number of seconds fits in an int. */
  lemma AsWrittenAgreesWithoutOverflow(n: int, unit: TimeUnit)
    requires MinInt <= n <= MaxInt && MinInt <= ToSeconds(n, unit) <= MaxInt
    ensures ValidateIntervalAsWritten(Decimal(n), unit) == ValidateInterval(Decimal(n), unit)
  {
    ValidateDecimalAsWritten(n, unit);
    ValidateDecimal(n, unit);
  }

  /** 71582789 * 60 = 4294967340 = 2^32 + 44. */
  lemma MinutesWrapAround()
    ensures ToSecondsAsWritten(71582789, Minutes) == 44
  {
  }

  /**
   * 71582789 minutes is 4294967340 seconds, which wraps to 44: the written
   * conversion accepts it as a 44-second interval.
   */
  lemma AsWrittenAcceptsOverflowingMinutes()
    ensures ValidateIntervalAsWritten(Decimal(71582789), Minutes) == Accepted(44)
    ensures ValidateInterval(Decimal(71582789), Minutes) == OutOfRange(4294967340)
  {
    ValidateDecimalAsWritten(71582789, Minutes);
    MinutesWrapAround();
    ValidateDecimal(71582789, Minutes);
  }

  /** What the link dialog asks the visualizer to do. */
  datatype LinkChoice = LinkCancelled | LoadLink(url: string) | LinkRejected

  /**
   * One answer of the link dialog (None when cancelled): a blank answer loads
   * the default feed, an answer ending in ".json" is loaded as typed
   * (untrimmed), anything else is refused.
   */
  function ChooseLink(input: Option<string>): (c: LinkChoice)
    ensures c == LinkCancelled <==> input.None?
    ensures input.Some? && IsBlank(input.value) ==> c == LoadLink(DefaultFeedUrl)
    ensures c.LoadLink? && c.url != DefaultFeedUrl ==> input == Some(c.url) && EndsWith(c.url, JsonSuffix)
    ensures input.Some? && !IsBlank(input.value) && EndsWith(input.value, JsonSuffix) ==> c == LoadLink(input.value)
    ensures c == LinkRejected <==> input.Some? && !IsBlank(input.value) && !EndsWith(input.value, JsonSuffix)
  {
    match input
    case None => LinkCancelled
    case Some(s) =>
      TrimEmptyIffBlank(s);
      if Trim(s) == [] then LoadLink(DefaultFeedUrl)
      else if EndsWith(s, JsonSuffix) then LoadLink(s)
      else LinkRejected
  }

  /**
   * The default feed ends in ".geojson", not ".json": typing its address into
   * the dialog is refused, although a blank answer loads that very address.
   */
  lemma DefaultFeedRefusedWhenTyped()
    ensures ChooseLink(Some("")) == LoadLink(DefaultFeedUrl)
    ensures ChooseLink(Some(DefaultFeedUrl)) == LinkRejected
  {
    assert !IsTrimmable(DefaultFeedUrl[72]);
    assert DefaultFeedUrl[68..][0] == 'o';
  }

  /** What the file chooser asks the visualizer to do. */
  datatype FileChoice = FileCancelled | LoadFile(name: string) | FileRejected

  /**
   * One answer of the file chooser (None when cancelled, otherwise the name of
   * the selected file): only names ending in ".json" are loaded.
   */
  function ChooseFile(selection: Option<string>): (c: FileChoice)
    ensures c == FileCancelled <==> selection.None?
    ensures c.LoadFile? <==> selection.Some? && EndsWith(selection.value, JsonSuffix)
    ensures c.LoadFile? ==> c.name == selection.value
  {
    match selection
    case None => FileCancelled
    case Some(name) => if EndsWith(name, JsonSuffix) then LoadFile(name) else FileRejected
  }
}
