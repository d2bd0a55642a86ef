/** When a record file starts a new database: src/msg_recorder/rolling_helper.cc. Times are whole
    seconds, as std::time_t has them. */
module Rolling {

  const SECONDS_PER_DAY := 86400
  const SECONDS_PER_HOUR := 3600
  const OFFSET_SECONDS := 60
  const MEGA := 1000000
  const WORD := 0x1_0000_0000_0000_0000

  // The remainder of C++, which has the sign of the dividend.
  function Remainder(a: int, b: int): int
    requires b > 0
  {
    if a >= 0 then a % b else -((-a) % b)
  }

  function CalcNextRollingTime(now: int, interval: int, offset: int): int
    requires interval > 0
  {
    now - Remainder(now, interval) + interval + offset
  }

  lemma {:induction false} TruncatedIsMultiple(a: int, b: int)
    requires b > 0
    ensures (a - Remainder(a, b)) % b == 0
    ensures a >= 0 ==> 0 <= Remainder(a, b) < b
    ensures a < 0 ==> -b < Remainder(a, b) <= 0
    ensures Remainder(a, b) == 0 <==> a % b == 0
  {
    var q := if a >= 0 then a / b else -((-a) / b);
    assert a - Remainder(a, b) == q * b;
    MultipleOf(q, b);
    if Remainder(a, b) == 0 {
      assert a == q * b;
    } else if a < 0 {
      assert a == (q - 1) * b + (b + Remainder(a, b));
      UniqueRemainder(a, b, q - 1, b + Remainder(a, b));
    }
  }

  lemma {:induction false} MultipleOf(q: int, b: int)
    requires b > 0
    ensures (q * b) % b == 0
  {
    UniqueRemainder(q * b, b, q, 0);
  }

  lemma {:induction false} UniqueRemainder(a: int, b: int, q: int, r: int)
    requires b > 0 && a == q * b + r && 0 <= r < b
    ensures a % b == r
  {
    var d := a / b - q;
    assert a % b == r - d * b;
    if d >= 1 { Scale(1, d, b); }
    if d <= -1 { Scale(d, -1, b); }
  }

  lemma {:induction false} Scale(x: int, y: int, b: int)
    requires x <= y && b > 0
    ensures x * b <= y * b
  {
  }

  /** The next rolling time is an offset past a whole interval, more than the offset away, and at
      most one interval further exactly when the clock is not before 1970 or on a whole interval. */
  lemma {:induction false} NextRollingTime(now: int, interval: int)
    requires interval > 0
    ensures var next := CalcNextRollingTime(now, interval, OFFSET_SECONDS);
      && (next - OFFSET_SECONDS) % interval == 0
      && now + OFFSET_SECONDS < next
      && (next <= now + interval + OFFSET_SECONDS <==> now >= 0 || now % interval == 0)
  {
    TruncatedIsMultiple(now, interval);
    var base := now - Remainder(now, interval);
    UniqueRemainder(base, interval, base / interval, 0);
    assert base + interval == (base / interval + 1) * interval;
    MultipleOf(base / interval + 1, interval);
  }

  // rolling_helper_: none, by size, or by day or hour.
  datatype Helper =
    | NoRolling
    | BySize(limit: nat, current: nat)
    | ByTime(interval: int, timeToRoll: int)

  predicate Positive(h: Helper)
  {
    h.ByTime? ==> h.interval > 0
  }

  predicate NeedToRoll(h: Helper, time: int, size: nat)
  {
    match h
    case NoRolling => false
    case BySize(limit, current) => if limit <= size then true else current >= limit - size
    case ByTime(_, timeToRoll) => time >= timeToRoll
  }

  /** A helper asks for a roll exactly when the value would take what it has counted to the limit, or
      when the time has come. */
  lemma {:induction false} RollsWhenDue(h: Helper, time: int, size: nat)
    ensures NeedToRoll(h, time, size)
            <==> (h.BySize? && h.current + size >= h.limit) || (h.ByTime? && time >= h.timeToRoll)
  {
  }

  function Update(h: Helper, size: nat): Helper
  {
    if h.BySize? then h.(current := h.current + size) else h
  }

  function Reset(h: Helper, now: int): Helper
    requires Positive(h)
  {
    match h
    case NoRolling => h
    case BySize(_, _) => h.(current := 0)
    case ByTime(interval, _) => h.(timeToRoll := CalcNextRollingTime(now, interval, OFFSET_SECONDS))
  }

  // ---------------------------------------------------------------- new helpers

  function ByDay(now: int): Helper
  {
    ByTime(SECONDS_PER_DAY, CalcNextRollingTime(now, SECONDS_PER_DAY, OFFSET_SECONDS))
  }

  function ByHour(now: int): Helper
  {
    ByTime(SECONDS_PER_HOUR, CalcNextRollingTime(now, SECONDS_PER_HOUR, OFFSET_SECONDS))
  }

  // The limit is a product of unsigned 64-bit numbers.
  function ByMegabytes(limit: nat): Helper
  {
    BySize(limit * MEGA % WORD, 0)
  }

  lemma {:induction false} MinutePast(now: int, interval: int)
    requires now >= 0 && interval > OFFSET_SECONDS
    ensures var next := CalcNextRollingTime(now, interval, OFFSET_SECONDS);
      && next % interval == OFFSET_SECONDS
      && now + OFFSET_SECONDS < next <= now + interval + OFFSET_SECONDS
  {
    NextRollingTime(now, interval);
    var next := CalcNextRollingTime(now, interval, OFFSET_SECONDS);
    UniqueRemainder(next, interval, (next - OFFSET_SECONDS) / interval, OFFSET_SECONDS);
  }

  /** From 1970 on, a helper by day or hour rolls within the interval, a minute after its end; a
      reset helper is a new one. */
  lemma {:induction false} NewHelperRollsInTime(now: int)
    requires now >= 0
    ensures ByDay(now).timeToRoll % SECONDS_PER_DAY == ByHour(now).timeToRoll % SECONDS_PER_HOUR == OFFSET_SECONDS
    ensures now + OFFSET_SECONDS < ByDay(now).timeToRoll <= now + SECONDS_PER_DAY + OFFSET_SECONDS
    ensures now + OFFSET_SECONDS < ByHour(now).timeToRoll <= now + SECONDS_PER_HOUR + OFFSET_SECONDS
    ensures forall earlier :: Reset(ByDay(earlier), now) == ByDay(now) && Reset(ByHour(earlier), now) == ByHour(now)
  {
    MinutePast(now, SECONDS_PER_DAY);
    MinutePast(now, SECONDS_PER_HOUR);
  }

  /** The configured megabytes are the limit in bytes exactly below 2^64 bytes; above, the
      product wraps around. */
  lemma {:induction false} LimitInBytes(limit: nat)
    ensures ByMegabytes(limit).limit == limit * MEGA <==> limit * MEGA < WORD
  {
  }
}
