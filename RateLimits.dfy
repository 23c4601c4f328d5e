/**
 * ratelimit.go: reading the server's rate-limit budget out of response headers.
 * Instants are integers (nanoseconds after Go's zero time, so the zero instant is 0);
 * time.Parse is a parameter that maps a layout and a text to an instant or fails.
 */
module RateLimits {
  import opened Wrappers
  import opened Strconv

  /** A point in time: nanoseconds after Go's zero time (January 1, year 1, 00:00:00 UTC). */
  type Instant = int

  /** time.Time.IsZero: the uninitialised instant. */
  const ZeroInstant: Instant := 0

  /** time.Duration: a signed 64-bit count of nanoseconds. */
  type Duration = Int64

  /** time.Time.Sub: t - u, saturated to the Duration range as Go does when the difference does not fit. */
  function Sub(t: Instant, u: Instant): (d: Duration)
    ensures d == t - u <==> MinInt64 <= t - u <= MaxInt64
    ensures d < 0 <==> t < u
    ensures d == 0 <==> t == u
    ensures t - u > MaxInt64 ==> d == MaxInt64
    ensures t - u < MinInt64 ==> d == MinInt64
  {
    if t - u < MinInt64 then MinInt64 else if t - u > MaxInt64 then MaxInt64 else t - u
  }

  /** The budget the server advertises. Period is the window length ResetAt - Date. */
  datatype RateLimit = RateLimit(limit: Int64, remaining: Int64, resetAt: Instant, period: Duration)

  /** time.RFC1123, the layout of an HTTP date (section 7.1.1.1 of RFC 7231). */
  const RFC1123: string := "Mon, 02 Jan 2006 15:04:05 MST"

  /** The same layout with a day of month that may have a single digit. */
  const SingleDigitDay: string := "Mon, 2 Jan 2006 15:04:05 MST"

  /** headerTimeFormats: the layouts tried on Ratelimit-Reset, in this order. */
  const HeaderTimeFormats: seq<string> := [RFC1123, SingleDigitDay]

  /** time.Parse(layout, value): the instant the text denotes in that layout, if it matches. */
  type TimeParser = (string, string) -> Option<Instant>

  /** http.Header with canonical keys: each header name maps to its values, in order. */
  type Header = map<string, seq<string>>

  /** http.Header.Get: the first value of the header, or "" when it is absent. */
  function HeaderGet(h: Header, name: string): (v: string)
    ensures name in h && |h[name]| > 0 ==> v == h[name][0]
    ensures (name !in h || h[name] == []) ==> v == ""
  {
    if name in h && |h[name]| > 0 then h[name][0] else ""
  }

  /** Why a header set does not yield a RateLimit; each case is the error parseRateLimit returns. */
  datatype RateLimitError =
    | LimitInvalid(cause: NumError)       // strconv.Atoi's error on Ratelimit-Limit
    | RemainingInvalid(cause: NumError)   // strconv.Atoi's error on Ratelimit-Remaining
    | ResetUnparsed(header: string)       // no layout matched Ratelimit-Reset, or it gave the zero instant
    | DateInvalid(header: string)         // time.Parse's error on Date
  {
    /**
     * The error's text, when this model fixes it: strconv's message for the counts and
     * parseRateLimit's own message for the reset header. time.ParseError's text depends
     * on where the layout stopped matching, which the parser parameter does not report.
     */
    function Message(): (m: Option<string>)
      ensures m.None? <==> DateInvalid?
      ensures (LimitInvalid? || RemainingInvalid?) ==> m.Some? && exists lead, tail :: m.value == lead + cause.num + tail
      ensures ResetUnparsed? ==> m.Some? && exists lead, tail :: m.value == lead + header + tail
    {
      match this
      case LimitInvalid(e) => Some(e.Message())
      case RemainingInvalid(e) => Some(e.Message())
      case ResetUnparsed(value) => Some(ResetErrorMessage(value))
      case DateInvalid(_) => None
    }
  }

  /** The text of the error for an unreadable Ratelimit-Reset header. */
  function ResetErrorMessage(header: string): (m: string)
    ensures |m| > |header|
    ensures exists lead, tail :: m == lead + header + tail
  {
    var lead, tail := "failed to parse Ratelimit-Reset header: ", ", no known date formats match";
    lead + header + tail
  }

  /** The instant given by the first layout, in list order, that parses value; None when none does. */
  function FirstParsed(layouts: seq<string>, value: string, parse: TimeParser): (r: Option<Instant>)
    ensures r.None? <==> forall k :: 0 <= k < |layouts| ==> parse(layouts[k], value).None?
    ensures r.Some? ==> exists k :: 0 <= k < |layouts| && parse(layouts[k], value) == r
                                  && forall j :: 0 <= j < k ==> parse(layouts[j], value).None?
  {
    if |layouts| == 0 then None
    else if parse(layouts[0], value).Some? then parse(layouts[0], value)
    else
      var r := FirstParsed(layouts[1..], value, parse);
      assert forall k :: 1 <= k < |layouts| ==> layouts[k] == layouts[1..][k - 1];
      r
  }

  /** What parseRateLimit computes from the headers: a complete RateLimit or the first error met. */
  function RateLimitOf(h: Header, parse: TimeParser): (r: Result<RateLimit, RateLimitError>)
    // Ratelimit-Limit is read first; its failure is the error, whatever the other headers say.
    ensures Atoi(HeaderGet(h, "Ratelimit-Limit")).Failure? ==>
              r == Failure(LimitInvalid(Atoi(HeaderGet(h, "Ratelimit-Limit")).error))
    // Ratelimit-Remaining is read only once the limit is an integer.
    ensures Atoi(HeaderGet(h, "Ratelimit-Limit")).Success? && Atoi(HeaderGet(h, "Ratelimit-Remaining")).Failure? ==>
              r == Failure(RemainingInvalid(Atoi(HeaderGet(h, "Ratelimit-Remaining")).error))
    // Once both counts parse, a reset header that no layout reads, or that reads as the zero instant, is the error.
    ensures Atoi(HeaderGet(h, "Ratelimit-Limit")).Success? && Atoi(HeaderGet(h, "Ratelimit-Remaining")).Success?
            && FirstParsed(HeaderTimeFormats, HeaderGet(h, "Ratelimit-Reset"), parse) in {None, Some(ZeroInstant)} ==>
              r == Failure(ResetUnparsed(HeaderGet(h, "Ratelimit-Reset")))
    // Only after a usable reset instant is the Date header read; its failure is the error.
    ensures Atoi(HeaderGet(h, "Ratelimit-Limit")).Success? && Atoi(HeaderGet(h, "Ratelimit-Remaining")).Success?
            && FirstParsed(HeaderTimeFormats, HeaderGet(h, "Ratelimit-Reset"), parse) !in {None, Some(ZeroInstant)}
            && parse(RFC1123, HeaderGet(h, "Date")).None? ==>
              r == Failure(DateInvalid(HeaderGet(h, "Date")))
    // Success needs every header, and the Date header is read in the RFC 1123 layout alone.
    ensures r.Success? <==>
              && Atoi(HeaderGet(h, "Ratelimit-Limit")).Success?
              && Atoi(HeaderGet(h, "Ratelimit-Remaining")).Success?
              && FirstParsed(HeaderTimeFormats, HeaderGet(h, "Ratelimit-Reset"), parse) !in {None, Some(ZeroInstant)}
              && parse(RFC1123, HeaderGet(h, "Date")).Some?
    // On success every field comes from its header, and Period is ResetAt - Date.
    ensures r.Success? ==>
              && r.value.limit == Atoi(HeaderGet(h, "Ratelimit-Limit")).value
              && r.value.remaining == Atoi(HeaderGet(h, "Ratelimit-Remaining")).value
              && Some(r.value.resetAt) == FirstParsed(HeaderTimeFormats, HeaderGet(h, "Ratelimit-Reset"), parse)
              && r.value.resetAt != ZeroInstant
              && r.value.period == Sub(r.value.resetAt, parse(RFC1123, HeaderGet(h, "Date")).value)
  {
    match Atoi(HeaderGet(h, "Ratelimit-Limit"))
    case Failure(e) => Failure(LimitInvalid(e))
    case Success(limit) =>
      match Atoi(HeaderGet(h, "Ratelimit-Remaining"))
      case Failure(e) => Failure(RemainingInvalid(e))
      case Success(remaining) =>
        var resetHeader := HeaderGet(h, "Ratelimit-Reset");
        match FirstParsed(HeaderTimeFormats, resetHeader, parse)
        case None => Failure(ResetUnparsed(resetHeader))
        case Some(resetAt) =>
          if resetAt == ZeroInstant then Failure(ResetUnparsed(resetHeader))
          else
            match parse(RFC1123, HeaderGet(h, "Date"))
            case None => Failure(DateInvalid(HeaderGet(h, "Date")))
            case Some(date) => Success(RateLimit(limit, remaining, resetAt, Sub(resetAt, date)))
  }

  /**
   * parseRateLimit: fills a zero RateLimit field by field, returning at the first
   * header that does not parse; the reset header is tried against each layout in
   * turn and the loop stops at the first layout that parses it.
   */
  method ParseRateLimit(h: Header, parse: TimeParser) returns (r: Result<RateLimit, RateLimitError>)
    ensures r == RateLimitOf(h, parse)
  {
    var rl := RateLimit(0, 0, ZeroInstant, 0);

    var limit := Atoi(HeaderGet(h, "Ratelimit-Limit"));
    if limit.Failure? {
      return Failure(LimitInvalid(limit.error));
    }
    rl := rl.(limit := limit.value);

    var remaining := Atoi(HeaderGet(h, "Ratelimit-Remaining"));
    if remaining.Failure? {
      return Failure(RemainingInvalid(remaining.error));
    }
    rl := rl.(remaining := remaining.value);

    var resetHeader := HeaderGet(h, "Ratelimit-Reset");
    var i := 0;
    while i < |HeaderTimeFormats|
      invariant 0 <= i <= |HeaderTimeFormats|
      invariant rl == RateLimit(limit.value, remaining.value, ZeroInstant, 0)
      invariant FirstParsed(HeaderTimeFormats[i..], resetHeader, parse)
                == FirstParsed(HeaderTimeFormats, resetHeader, parse)
    {
      var resetAt := parse(HeaderTimeFormats[i], resetHeader);
      if resetAt.Some? {
        rl := rl.(resetAt := resetAt.value);
        break;
      }
      assert HeaderTimeFormats[i..][1..] == HeaderTimeFormats[i + 1..];
      i := i + 1;
    }

    if rl.resetAt == ZeroInstant {
      return Failure(ResetUnparsed(resetHeader));
    }

    var date := parse(RFC1123, HeaderGet(h, "Date"));
    if date.None? {
      return Failure(DateInvalid(HeaderGet(h, "Date")));
    }

    rl := rl.(period := Sub(rl.resetAt, date.value));
    return Success(rl);
  }

  /** The reset header is read in RFC 1123 when it can be; the single-digit-day layout is consulted only otherwise. */
  lemma ResetLayoutOrder(value: string, parse: TimeParser)
    ensures parse(RFC1123, value).Some? ==> FirstParsed(HeaderTimeFormats, value, parse) == parse(RFC1123, value)
    ensures parse(RFC1123, value).None? ==> FirstParsed(HeaderTimeFormats, value, parse) == parse(SingleDigitDay, value)
  {
  }

  /**
   * A reset header that RFC 1123 reads as the zero instant fails the parse, even when
   * the single-digit-day layout would have read it as a real instant: the first
   * layout that parses wins, and the zero check comes after the loop.
   */
  lemma ZeroResetNotRescued(h: Header, parse: TimeParser)
    requires Atoi(HeaderGet(h, "Ratelimit-Limit")).Success?
    requires Atoi(HeaderGet(h, "Ratelimit-Remaining")).Success?
    requires parse(RFC1123, HeaderGet(h, "Ratelimit-Reset")) == Some(ZeroInstant)
    ensures RateLimitOf(h, parse) == Failure(ResetUnparsed(HeaderGet(h, "Ratelimit-Reset")))
  {
  }

  /** A Date header in the single-digit-day layout is refused, however well that layout reads it. */
  lemma DateOnlyRfc1123(h: Header, parse: TimeParser)
    requires parse(RFC1123, HeaderGet(h, "Date")).None?
    ensures RateLimitOf(h, parse).Failure?
  {
  }

  /** The headers a server sends to advertise rl, with the two dates given as text. */
  function HeadersOf(rl: RateLimit, resetText: string, dateText: string): Header {
    map["Ratelimit-Limit" := [Itoa(rl.limit)],
        "Ratelimit-Remaining" := [Itoa(rl.remaining)],
        "Ratelimit-Reset" := [resetText],
        "Date" := [dateText]]
  }

  /**
   * Headers written from a RateLimit are read back as that RateLimit, provided the
   * dates are RFC 1123 texts of its instants and its period is the window they span.
   */
  lemma HeadersRoundTrip(rl: RateLimit, resetText: string, dateText: string, date: Instant, parse: TimeParser)
    requires rl.resetAt != ZeroInstant
    requires parse(RFC1123, resetText) == Some(rl.resetAt)
    requires parse(RFC1123, dateText) == Some(date)
    requires rl.period == Sub(rl.resetAt, date)
    ensures RateLimitOf(HeadersOf(rl, resetText, dateText), parse) == Success(rl)
  {
    var h := HeadersOf(rl, resetText, dateText);
    assert HeaderGet(h, "Ratelimit-Limit") == Itoa(rl.limit);
    assert HeaderGet(h, "Ratelimit-Remaining") == Itoa(rl.remaining);
    assert HeaderGet(h, "Ratelimit-Reset") == resetText;
    assert HeaderGet(h, "Date") == dateText;
    ResetLayoutOrder(resetText, parse);
  }
}
