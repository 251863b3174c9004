/**
 * The deterministic transaction time of chaincode/pharma-supply/pharmaSupply.js
 * (getTxTimestampISO and getTxDate): the consensus timestamp, a pair of seconds
 * and nanoseconds, turned into a count of milliseconds since the epoch, and from
 * there into a JavaScript Date and its ISO-8601 text.
 *
 * JavaScript numbers are modelled as integers or NaN; the time source never
 * produces fractional seconds. The ISO text is kept as the time value it was
 * printed from (IsoTime): Date.prototype.toISOString is one-to-one on valid
 * dates, and its formatting is not modelled.
 */
module TxTime {
  import opened Wrappers

  const TwoTo31: int := 0x8000_0000
  const TwoTo32: int := 0x1_0000_0000

  type Int32 = x: int | -0x8000_0000 <= x < 0x8000_0000
  type Int64 = x: int | -0x8000_0000_0000_0000 <= x < 0x8000_0000_0000_0000

  /** A JavaScript number as the timestamp code meets it: an integer or NaN. */
  datatype JsNumber = NaN | Int(v: int)

  /** A JavaScript Date: a time value in milliseconds, or an Invalid Date. */
  datatype JsDate = Invalid | Valid(ms: int)

  /** The ISO-8601 text of a valid Date, identified by its time value. */
  datatype IsoTime = IsoTime(ms: int)

  /** The shapes `ts.seconds` can take, in the order the source tests them. */
  datatype Seconds =
    | Number(n: int)                   // typeof seconds === 'number'
    | Long(low: Int32, high: Int32)    // a 64-bit Long, read through its halves
    | Convertible(n: int)              // an object with toInt() but no `low`
    | Other(parsed: JsNumber)          // anything else, given to parseInt
    | Missing                          // null or undefined: reading `.low` throws

  /** The consensus timestamp; `nanos` is None when absent (or 0, which reads the same). */
  datatype TxTimestamp = TxTimestamp(seconds: Seconds, nanos: Option<int>)

  /** The largest magnitude of a valid Date's time value (ECMAScript TimeClip). */
  const MaxTimeValue: int := 8_640_000_000_000_000

  /** The value of a signed 64-bit Long from its two signed 32-bit halves. */
  function LongValue(low: Int32, high: Int32): int
  {
    high * TwoTo32 + low % TwoTo32
  }

  /** The halves a 64-bit Long holds for the value s. */
  function LongOf(s: Int64): (l: Seconds)
    ensures l.Long?
  {
    var low := s % TwoTo32;
    assert -TwoTo31 <= s / TwoTo32 < TwoTo31;
    Long(if low < TwoTo31 then low else low - TwoTo32, s / TwoTo32)
  }

  /**
   * The seconds as getTxTimestampISO and getTxDate read them: a Long is read
   * through `low` alone. None stands for the TypeError thrown when seconds is
   * missing.
   */
  function SecondsAsWritten(s: Seconds): (r: Option<JsNumber>)
    ensures r.None? <==> s.Missing?
    ensures s.Long? ==> r == Some(Int(s.low))
  {
    match s
    case Number(n) => Some(Int(n))
    case Long(low, _) => Some(Int(low))
    case Convertible(n) => Some(Int(n))
    case Other(parsed) => Some(parsed)
    case Missing => None
  }

  /** The seconds read in full: a Long gives its whole 64-bit value. */
  function SecondsValue(s: Seconds): (r: Option<JsNumber>)
    ensures r.None? <==> s.Missing?
    ensures !s.Long? ==> r == SecondsAsWritten(s)
  {
    match s
    case Number(n) => Some(Int(n))
    case Long(low, high) => Some(Int(LongValue(low, high)))
    case Convertible(n) => Some(Int(n))
    case Other(parsed) => Some(parsed)
    case Missing => None
  }

  /** `Math.floor((ts.nanos || 0) / 1e6)`: Dafny's division floors for a positive divisor. */
  function NanosPart(nanos: Option<int>): int
  {
    match nanos
    case None => 0
    case Some(k) => k / 1_000_000
  }

  /** `seconds * 1000 + Math.floor(nanos / 1e6)`; NaN stays NaN. */
  function MillisOf(seconds: JsNumber, nanos: Option<int>): JsNumber
  {
    match seconds
    case NaN => NaN
    case Int(s) => Int(s * 1000 + NanosPart(nanos))
  }

  /** The milliseconds of the transaction, or None when reading the seconds threw. */
  function TxMillis(ts: TxTimestamp): Option<JsNumber>
  {
    match SecondsValue(ts.seconds)
    case None => None
    case Some(s) => Some(MillisOf(s, ts.nanos))
  }

  /** `new Date(millis)`: NaN or a value beyond TimeClip's range is an Invalid Date. */
  function MakeDate(m: JsNumber): (d: JsDate)
    ensures d.Valid? <==> m.Int? && -MaxTimeValue <= m.v <= MaxTimeValue
    ensures d.Valid? ==> d.ms == m.v
  {
    match m
    case NaN => Invalid
    case Int(v) => if -MaxTimeValue <= v <= MaxTimeValue then Valid(v) else Invalid
  }

  /** `date.toISOString()`: None for the RangeError an Invalid Date throws. */
  function ToISOString(d: JsDate): (r: Option<IsoTime>)
    ensures r.Some? <==> d.Valid?
    ensures r.Some? ==> r.value.ms == d.ms
  {
    match d
    case Invalid => None
    case Valid(ms) => Some(IsoTime(ms))
  }

  /**
   * getTxDate: the transaction time as a Date, or the epoch when reading the
   * seconds threw. A NaN or out-of-range value gives an Invalid Date (the Date
   * constructor does not throw).
   */
  function TxDate(ts: TxTimestamp): (d: JsDate)
    ensures d.Valid? ==> -MaxTimeValue <= d.ms <= MaxTimeValue
    ensures ts.seconds.Missing? ==> d == Valid(0)
    ensures d.Invalid? <==> TxMillis(ts).Some? && MakeDate(TxMillis(ts).value).Invalid?
  {
    match TxMillis(ts)
    case None => Valid(0)
    case Some(m) => MakeDate(m)
  }

  /**
   * getTxTimestampISO: the ISO text of the transaction time. Every failure
   * inside the `try` (a missing seconds value, or toISOString's RangeError on an
   * Invalid Date) falls back to the epoch.
   */
  function TxTimestampISO(ts: TxTimestamp): (iso: IsoTime)
    ensures -MaxTimeValue <= iso.ms <= MaxTimeValue
    ensures TxDate(ts).Valid? ==> iso.ms == TxDate(ts).ms
    ensures TxDate(ts).Invalid? ==> iso.ms == 0
  {
    match TxMillis(ts)
    case None => IsoTime(0)
    case Some(m) =>
      match ToISOString(MakeDate(m))
      case None => IsoTime(0)
      case Some(text) => text
  }

  /** Reading a Long in full gives back the 64-bit value it was built from. */
  lemma SecondsValueReadsLong(s: Int64)
    ensures SecondsValue(LongOf(s)) == Some(Int(s))
  {
  }

  /** Reading a Long through `low` alone is right exactly for 32-bit seconds. */
  lemma SecondsAsWrittenBelow2038(s: Int64)
    ensures SecondsAsWritten(LongOf(s)) == Some(Int(s)) <==> -TwoTo31 <= s < TwoTo31
  {
  }

  /** 2^31 seconds (2038-01-19T03:14:08Z) is read as -2^31 (1901-12-13T20:45:52Z). */
  lemma LongLowWrapsAt2038()
    ensures SecondsAsWritten(LongOf(TwoTo31)) == Some(Int(-TwoTo31))
    ensures SecondsValue(LongOf(TwoTo31)) == Some(Int(TwoTo31))
  {
  }

  /**
   * A Fabric timestamp (64-bit seconds, nanos) in the Date range yields
   * seconds * 1000 + floor(nanos / 10^6) milliseconds, and the ISO text and the
   * Date carry that same value.
   */
  lemma TxTimeOfFabricTimestamp(s: Int64, nanos: Option<int>)
    requires -MaxTimeValue <= s * 1000 + NanosPart(nanos) <= MaxTimeValue
    ensures TxDate(TxTimestamp(LongOf(s), nanos)) == Valid(s * 1000 + NanosPart(nanos))
    ensures TxTimestampISO(TxTimestamp(LongOf(s), nanos)) == IsoTime(s * 1000 + NanosPart(nanos))
  {
  }

  /**
   * Whatever shape the seconds come in, a value of s seconds in the Date range
   * yields s * 1000 + floor(nanos / 10^6) milliseconds (missing nanos read as 0),
   * and the ISO text and the Date carry that same value.
   */
  lemma TxTimeOfSeconds(ts: TxTimestamp, s: int)
    requires SecondsValue(ts.seconds) == Some(Int(s))
    requires -MaxTimeValue <= s * 1000 + NanosPart(ts.nanos) <= MaxTimeValue
    ensures TxDate(ts) == Valid(s * 1000 + NanosPart(ts.nanos))
    ensures TxTimestampISO(ts) == IsoTime(s * 1000 + NanosPart(ts.nanos))
  {
  }

  /** When reading the seconds throws, both helpers give the epoch. */
  lemma MissingSecondsGiveEpoch(ts: TxTimestamp)
    requires ts.seconds.Missing?
    ensures TxDate(ts) == Valid(0) && TxTimestampISO(ts) == IsoTime(0)
  {
  }
}
