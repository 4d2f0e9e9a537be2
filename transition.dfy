/**
  The transition decision of the daytime service: from the raw sunrise and
  sunset the solar library computed for today, the safety offset and the
  current instant, decide which status comes next and when it begins.
  The solar library itself is outside the model: its two answers are inputs.
 */
module Transition {
  import opened Wrappers

  /** An instant, in nanoseconds since the epoch. */
  type Time = int

  const MinInt64: int := -0x8000_0000_0000_0000
  const MaxInt64: int := 0x7FFF_FFFF_FFFF_FFFF
  const TwoTo64: int := 0x1_0000_0000_0000_0000

  /** Go's int64. */
  type Int64 = x: int | MinInt64 <= x <= MaxInt64

  /** Go's time.Duration: a signed 64-bit count of nanoseconds. */
  type Duration = Int64

  /** Two's-complement wrap-around of a mathematical integer into an int64,
      which is what Go's int64 arithmetic does on overflow. */
  function Wrap64(x: int): (d: Int64)
    ensures (d - x) % TwoTo64 == 0
    ensures MinInt64 <= x <= MaxInt64 ==> d == x
  {
    (x - MinInt64) % TwoTo64 + MinInt64
  }

  /** Go's unary minus on an int64: every value but the least is negated,
      and the least is its own negation. */
  function Negate64(d: Int64): (n: Int64)
    ensures d != MinInt64 ==> n == -d
    ensures d == MinInt64 ==> n == MinInt64
    ensures (n + d) % TwoTo64 == 0
  {
    if d == MinInt64 then d else -d
  }

  const DaytimeStatus: string := "Daytime"
  const NighttimeStatus: string := "Nighttime"
  /** The status reported when no boundary of today lies ahead. */
  const UnknownStatus: string := ""

  const SunriseContext: string := "Unable to calculate sunrise"
  const SunsetContext: string := "Unable to calculate sunset"

  /** What the solar library answers for one event: the instant, or its error text. */
  type SunResult = Result<Time, string>

  /** An error annotated with a context message, as errors.Wrap builds it. */
  datatype Error = Wrapped(context: string, cause: string)

  /** The decision: the next status and the instant it begins; an absent
      instant is Go's nil *time.Time. */
  datatype Next = Next(status: string, at: Option<Time>)

  /** A boundary that may become the next transition. */
  datatype Candidate = Candidate(status: string, at: Time)

  /** The adjusted boundaries in the order they are tried: sunrise pushed
      later by the offset, then sunset moved by the int64 negation of the
      offset, which pulls it earlier by the offset except for the least
      int64 offset, whose negation is itself. */
  function Boundaries(sunrise: Time, sunset: Time, offset: Duration): (cs: seq<Candidate>)
    ensures |cs| == 2
    ensures cs[0].status == DaytimeStatus && cs[0].at - sunrise == offset
    ensures cs[1].status == NighttimeStatus && cs[1].at - sunset == Negate64(offset)
    ensures offset != MinInt64 ==> sunset - cs[1].at == offset
    ensures offset == MinInt64 ==> cs[1].at - sunset == offset
  {
    [Candidate(DaytimeStatus, sunrise + offset), Candidate(NighttimeStatus, sunset + Negate64(offset))]
  }

  /** Position of the first candidate strictly after `now`, or |cs| if none is. */
  function FirstAfterIndex(cs: seq<Candidate>, now: Time): (k: nat)
    ensures k <= |cs|
    ensures forall j :: 0 <= j < k ==> cs[j].at <= now
    ensures k < |cs| ==> cs[k].at > now
  {
    if cs == [] || cs[0].at > now then 0 else 1 + FirstAfterIndex(cs[1..], now)
  }

  /** Reference selection: the first candidate, in the order tried, that lies
      strictly after `now`; the unknown status and no instant when none does. */
  function FirstAfter(cs: seq<Candidate>, now: Time): (n: Next)
    ensures n.at.None? <==> forall j :: 0 <= j < |cs| ==> cs[j].at <= now
    ensures n.at.Some? ==> n.at.value > now
    ensures n.at.None? ==> n.status == UnknownStatus
    ensures n.at.Some? ==> exists j :: 0 <= j < |cs| && cs[j] == Candidate(n.status, n.at.value)
    ensures n.at.Some? ==>
              exists k :: && 0 <= k < |cs| && cs[k] == Candidate(n.status, n.at.value)
                          && forall j :: 0 <= j < k ==> cs[j].at <= now
  {
    var k := FirstAfterIndex(cs, now);
    if k < |cs| then Next(cs[k].status, Some(cs[k].at)) else Next(UnknownStatus, None)
  }

  /** getNext: sunrise is consulted (and its failure returned) before sunset;
      only when both are known is the first adjusted boundary strictly after
      `now` chosen, sunrise first. */
  function GetNext(riseResult: SunResult, setResult: SunResult, offset: Duration, now: Time): (r: Result<Next, Error>)
    ensures riseResult.Failure? ==> r == Failure(Wrapped(SunriseContext, riseResult.error))
    ensures riseResult.Success? && setResult.Failure? ==> r == Failure(Wrapped(SunsetContext, setResult.error))
    ensures riseResult.Success? && setResult.Success? ==>
              r == Success(FirstAfter(Boundaries(riseResult.value, setResult.value, offset), now))
  {
    if riseResult.Failure? then Failure(Wrapped(SunriseContext, riseResult.error))
    else
      var sunrise := riseResult.value + offset;
      if setResult.Failure? then Failure(Wrapped(SunsetContext, setResult.error))
      else
        var sunset := setResult.value + Negate64(offset);
        if sunrise > now then Success(Next(DaytimeStatus, Some(sunrise)))
        else if sunset > now then Success(Next(NighttimeStatus, Some(sunset)))
        else Success(Next(UnknownStatus, None))
  }

  /** Whatever the inputs, a successful decision names a real status exactly
      when it carries an instant, and that instant lies strictly after `now`. */
  lemma NextIsAheadOfNow(riseResult: SunResult, setResult: SunResult, offset: Duration, now: Time)
    ensures var r := GetNext(riseResult, setResult, offset, now);
            r.Success? ==>
              && (r.value.at.Some? <==> r.value.status in {DaytimeStatus, NighttimeStatus})
              && (r.value.at.None? <==> r.value.status == UnknownStatus)
              && (r.value.at.Some? ==> r.value.at.value > now)
  {
  }

  /** The three outcomes of a decision over known boundaries. */
  lemma DecisionCases(sunrise: Time, sunset: Time, offset: Duration, now: Time)
    ensures var r := GetNext(Success(sunrise), Success(sunset), offset, now);
            && (sunrise + offset > now ==>
                  r == Success(Next(DaytimeStatus, Some(sunrise + offset))))
            && (sunrise + offset <= now && sunset + Negate64(offset) > now ==>
                  r == Success(Next(NighttimeStatus, Some(sunset + Negate64(offset)))))
            && (sunrise + offset <= now && sunset + Negate64(offset) <= now ==>
                  r == Success(Next(UnknownStatus, None)))
  {
  }

  /** Either failure means no status and no instant: the error alone is returned. */
  lemma FailureCarriesNoDecision(riseResult: SunResult, setResult: SunResult, offset: Duration, now: Time)
    ensures GetNext(riseResult, setResult, offset, now).Failure? <==> riseResult.Failure? || setResult.Failure?
    ensures riseResult.Failure? ==> GetNext(riseResult, setResult, offset, now).error.context == SunriseContext
    ensures riseResult.Success? && setResult.Failure? ==> GetNext(riseResult, setResult, offset, now).error.context == SunsetContext
  {
  }

  /** When the offset leaves the adjusted sunrise no later than the adjusted
      sunset (the caller's responsibility), the decision is the earliest
      adjusted boundary strictly after `now`. */
  lemma EarliestBoundaryAhead(sunrise: Time, sunset: Time, offset: Duration, now: Time)
    requires sunrise + offset <= sunset + Negate64(offset)
    ensures var r := GetNext(Success(sunrise), Success(sunset), offset, now);
            && r.Success?
            && (r.value.at.Some? ==>
                  forall c :: c in Boundaries(sunrise, sunset, offset) && c.at > now ==> r.value.at.value <= c.at)
            && (r.value.at.None? ==> sunrise + offset <= now && sunset + Negate64(offset) <= now)
  {
  }

  /** Without that responsibility met, sunrise still wins whenever it is
      ahead, although the adjusted sunset is also ahead and comes first. */
  lemma InvertedBoundariesPreferSunrise(sunrise: Time, sunset: Time, offset: Duration, now: Time)
    requires now < sunset + Negate64(offset) < sunrise + offset
    ensures GetNext(Success(sunrise), Success(sunset), offset, now)
              == Success(Next(DaytimeStatus, Some(sunrise + offset)))
  {
  }

  /** With the least int64 offset the negation wraps, so the adjusted sunset
      moves about 292 years earlier instead of later: with sunrise and sunset
      at `now`, nothing lies ahead. */
  lemma LeastOffsetPullsSunsetEarlier(sunrise: Time, sunset: Time, now: Time)
    requires sunrise <= now && sunset <= now
    ensures GetNext(Success(sunrise), Success(sunset), MinInt64, now) == Success(Next(UnknownStatus, None))
  {
  }
}
