/**
 * Rate-limit estimation (rate_limit.go): from a server fault string or from
 * the rate-limit response headers, the instant at which requests may resume,
 * or the zero time when there is no usable signal. Neither function can fail.
 */
module RateLimit {
  import opened GoInt
  import opened GoStrings
  import opened Strconv
  import opened GoTime
  import opened Wrappers

  const QuotaViolationPrefix: string := "Quota Violation"

  /** Header holding the number of requests remaining. */
  const RateLimitAvailable: string := "X-Ratelimit-Available"
  /** Header holding the Unix second at which the rate limit renews. */
  const RateLimitExpiry: string := "X-Ratelimit-Expiry"

  /** `http.Header`: canonical header names to their values. */
  type Header = map<string, seq<string>>

  /** `h.Get(key)` for a canonical key: its first value, or "" when absent. */
  function HeaderGet(h: Header, key: string): string {
    if key in h && |h[key]| > 0 then h[key][0] else ""
  }

  /** A fault string that starts with the quota prefix has at least two fields,
      so its last field can always be taken. */
  lemma QuotaFields(body: string)
    requires HasPrefix(body, QuotaViolationPrefix)
    ensures |Fields(body)| >= 2
  {
    QuotaPrefixChars(body);
    QuotaIsWord();
    var rest := body[5..];
    assert body == "Quota" + rest;
    FieldsOfWord("Quota", rest);
    FieldsNonEmpty(rest, 1);
  }

  lemma QuotaPrefixChars(body: string)
    requires HasPrefix(body, QuotaViolationPrefix)
    ensures body[5] == ' ' && body[6] == 'V' && body[..5] == "Quota"
  {
    var p := body[..15];
    assert p == QuotaViolationPrefix;
    assert body[..5] == p[..5];
  }

  lemma QuotaIsWord()
    ensures forall k :: 0 <= k < 5 ==> !IsSpace("Quota"[k])
  {
  }

  /** The last field of a quota fault string. */
  function LastField(body: string): string
    requires HasPrefix(body, QuotaViolationPrefix)
  {
    QuotaFields(body);
    var parts := Fields(body);
    parts[|parts| - 1]
  }

  /** `parseQuotaViolationExpiration`: the last field of a "Quota Violation"
      fault string read as milliseconds since the epoch, truncated to whole
      seconds; the zero time for any other body or an unreadable field. */
  function ParseQuotaViolationExpiration(body: string): (t: Time)
    ensures !HasPrefix(body, QuotaViolationPrefix) ==> t == ZeroTime
    ensures HasPrefix(body, QuotaViolationPrefix) && ParseInt(LastField(body)).Failure? ==> t == ZeroTime
  {
    if !HasPrefix(body, QuotaViolationPrefix) then ZeroTime
    else
      match ParseInt(LastField(body))
      case Failure(_) => ZeroTime
      case Success(ms) => Unix(Quot(ms, 1000), 0)
  }

  /** A readable quota expiry of `ms` milliseconds is a whole second, reached by
      dropping the sub-second part toward zero: at or below `ms` for a
      non-negative `ms`, at or above it for a negative one. */
  lemma QuotaExpiryTruncates(body: string, ms: int)
    requires HasPrefix(body, QuotaViolationPrefix)
    requires ParseInt(LastField(body)) == Success(ms)
    ensures ParseQuotaViolationExpiration(body) % Second == 0
    ensures ms >= 0 ==> ParseQuotaViolationExpiration(body) <= ms * Millisecond < ParseQuotaViolationExpiration(body) + Second
    ensures ms < 0 ==> ParseQuotaViolationExpiration(body) - Second < ms * Millisecond <= ParseQuotaViolationExpiration(body)
  {
    QuotRem(ms, 1000);
    var q := Quot(ms, 1000);
    assert ParseQuotaViolationExpiration(body) == q * Second;
    assert ms * Millisecond == (q * 1000 + Rem(ms, 1000)) * Millisecond;
  }

  /** `getRateLimitExpiration`: the renewal instant exactly when both headers
      hold integers, none remain and the renewal second is positive; the zero
      time otherwise, including when either header is missing or unreadable.
      A renewal second too large for `time.Unix`'s year-1 offset wraps around
      to an instant before year 1, as Go's int64 addition does. */
  function GetRateLimitExpiration(h: Header): (t: Time)
    ensures t != ZeroTime <==>
      (ParseInt(HeaderGet(h, RateLimitAvailable)) == Success(0)
       && ParseInt(HeaderGet(h, RateLimitExpiry)).Success?
       && ParseInt(HeaderGet(h, RateLimitExpiry)).value > 0)
    ensures t != ZeroTime && ParseInt(HeaderGet(h, RateLimitExpiry)).value <= MaxUnixSeconds ==>
      t == ParseInt(HeaderGet(h, RateLimitExpiry)).value * Second
    ensures t != ZeroTime && ParseInt(HeaderGet(h, RateLimitExpiry)).value > MaxUnixSeconds ==>
      t == (ParseInt(HeaderGet(h, RateLimitExpiry)).value - Modulus64) * Second && t < ZeroTime
  {
    match ParseInt(HeaderGet(h, RateLimitAvailable))
    case Failure(_) => ZeroTime
    case Success(rateLimit) =>
      match ParseInt(HeaderGet(h, RateLimitExpiry))
      case Failure(_) => ZeroTime
      case Success(rateLimitExpiry) =>
        if rateLimit == 0 && rateLimitExpiry > 0 then Unix(rateLimitExpiry, 0) else ZeroTime
  }

  /** A renewal second past `MaxUnixSeconds` (still a valid int64, such as
      9223372036854775807) overflows `time.Unix`'s year-1 offset: the result
      is not the zero time, yet lies before year 1 rather than in the future. */
  lemma {:induction false} FarExpiryWrapsBeforeYearOne(h: Header, secs: nat)
    requires HeaderGet(h, RateLimitAvailable) == "0"
    requires HeaderGet(h, RateLimitExpiry) == FormatNat(secs)
    requires MaxUnixSeconds < secs <= MaxInt64
    ensures GetRateLimitExpiration(h) == (secs - Modulus64) * Second
    ensures GetRateLimitExpiration(h) != ZeroTime && GetRateLimitExpiration(h) < ZeroTime
  {
    FormatNatRoundTrip(secs);
    ParseIntMeaning(FormatNat(secs));
    FormatNatRoundTrip(0);
    ParseIntMeaning("0");
    assert FormatNat(0) == "0";
  }

  /** Missing headers give no signal: `h.Get` yields "", which is not a number. */
  lemma NoHeadersNoSignal(h: Header)
    requires RateLimitAvailable !in h || RateLimitExpiry !in h
    ensures GetRateLimitExpiration(h) == ZeroTime
  {
    assert ParseInt("").Failure?;
  }
}
