/** RecordFileKey of src/msg_recorder/record_key.cc: the printed form of a key, its parser and the
    order of the printed forms. */
module RecordKey {
  import opened Totals

  const I64_MAX := 0x7FFF_FFFF_FFFF_FFFF
  const U64_MAX := 0xFFFF_FFFF_FFFF_FFFF
  const WIDTH: nat := 20                       // kMaxInt64Digits

  datatype Key = Key(timestamp: int, count: int)

  predicate InRange(k: Key)
  {
    -I64_MAX - 1 <= k.timestamp <= I64_MAX && 0 <= k.count <= U64_MAX
  }

  function Clamped(k: Key): Key
  {
    if k.timestamp < 0 then k.(timestamp := 0) else k
  }

  // ---------------------------------------------------------------- printing

  predicate IsDigit(c: char)
  {
    '0' <= c <= '9'
  }

  function DigitChar(d: nat): (c: char)
    requires d < 10
    ensures IsDigit(c)
  {
    '0' + d as char
  }

  function DigitValue(c: char): (d: nat)
    requires IsDigit(c)
    ensures d < 10 && DigitChar(d) == c
  {
    (c - '0') as nat
  }

  // The number without padding, as an ostream prints it.
  function Decimal(n: nat): string
  {
    if n < 10 then [DigitChar(n)] else Decimal(n / 10) + [DigitChar(n % 10)]
  }

  // setfill('0') and setw(width): shorter texts are filled up, longer ones are left alone.
  function Fill(s: string, width: nat): string
    decreases width - |s|
  {
    if |s| >= width then s else Fill("0" + s, width)
  }

  function ToBytes(k: Key): string
    requires InRange(k)
  {
    "T" + Fill(Decimal(Clamped(k).timestamp), WIDTH) + "ns" + Fill(Decimal(k.count), WIDTH)
  }

  // The last `width` decimal digits of n.
  function Digits(n: nat, width: nat): (s: string)
    ensures |s| == width && AllDigits(s)
  {
    if width == 0 then "" else Digits(n / 10, width - 1) + [DigitChar(n % 10)]
  }

  predicate AllDigits(s: string)
  {
    forall i :: 0 <= i < |s| ==> IsDigit(s[i])
  }

  function Pow10(n: nat): nat
  {
    if n == 0 then 1 else 10 * Pow10(n - 1)
  }

  lemma {:induction false} ZeroDigits(width: nat)
    requires width > 0
    ensures Digits(0, width) == "0" + Digits(0, width - 1)
  {
    if width > 1 { ZeroDigits(width - 1); }
  }

  lemma {:induction false} LeadingZero(n: nat, width: nat)
    requires n < Pow10(width)
    ensures Digits(n, width + 1) == "0" + Digits(n, width)
  {
    if width == 0 {
      ZeroDigits(1);
    } else {
      LeadingZero(n / 10, width - 1);
    }
  }

  lemma {:induction false} FillDigits(n: nat, from: nat, width: nat)
    requires n < Pow10(from) && from <= width
    ensures Fill(Digits(n, from), width) == Digits(n, width)
    decreases width - from
  {
    if from < width {
      LeadingZero(n, from);
      assert n < Pow10(from + 1);
      FillDigits(n, from + 1, width);
    }
  }

  lemma {:induction false} DecimalDigits(n: nat, width: nat)
    requires 0 < width && n < Pow10(width)
    ensures exists w :: 0 < w <= width && n < Pow10(w) && Decimal(n) == Digits(n, w)
  {
    if n < 10 {
      assert Digits(n, 1) == Digits(n / 10, 0) + [DigitChar(n % 10)];
      assert n < Pow10(1);
    } else {
      DecimalDigits(n / 10, width - 1);
      var w :| 0 < w <= width - 1 && n / 10 < Pow10(w) && Decimal(n / 10) == Digits(n / 10, w);
      assert Decimal(n) == Digits(n, w + 1);
    }
  }

  lemma {:induction false} Pow10Twenty()
    ensures Pow10(WIDTH) == 100_000_000_000_000_000_000
  {
    assert Pow10(5) == 100_000;
    assert Pow10(10) == 10_000_000_000;
    assert Pow10(15) == 1_000_000_000_000_000;
  }

  /** Every 64-bit number prints as its twenty digits. */
  lemma {:induction false} FilledDecimal(n: nat)
    requires n <= U64_MAX
    ensures Fill(Decimal(n), WIDTH) == Digits(n, WIDTH)
  {
    Pow10Twenty();
    DecimalDigits(n, WIDTH);
    var w :| 0 < w <= WIDTH && n < Pow10(w) && Decimal(n) == Digits(n, w);
    FillDigits(n, w, WIDTH);
  }

  lemma {:induction false} PrintedForm(k: Key)
    requires InRange(k)
    ensures ToBytes(k) == "T" + Digits(Clamped(k).timestamp, WIDTH) + "ns" + Digits(k.count, WIDTH)
    ensures |ToBytes(k)| == 2 * WIDTH + 3
  {
    FilledDecimal(Clamped(k).timestamp);
    FilledDecimal(k.count);
  }

  // ---------------------------------------------------------------- parsing

  // The number a text of digits stands for, as std::stoll and std::stoull read it.
  function Value(s: string): nat
    requires AllDigits(s)
  {
    if s == "" then 0 else 10 * Value(s[..|s| - 1]) + DigitValue(s[|s| - 1])
  }

  // The end of the run of digits that starts at `i`.
  function DigitsEnd(s: string, i: nat): (e: nat)
    requires i <= |s|
    ensures i <= e <= |s| && (forall k :: i <= k < e ==> IsDigit(s[k])) && (e < |s| ==> !IsDigit(s[e]))
    decreases |s| - i
  {
    if i < |s| && IsDigit(s[i]) then DigitsEnd(s, i + 1) else i
  }

  /** The parser: "T", digits, "ns", digits and nothing else, both numbers in range. */
  function FromBytes(s: string): Option<Key>
  {
    if s == "" || s[0] != 'T' then None
    else
      var e := DigitsEnd(s, 1);
      if e == 1 || !("ns" <= s[e..]) then None
      else if e + 2 == |s| || DigitsEnd(s, e + 2) != |s| then None
      else
        var timestamp, count := Value(s[1..e]), Value(s[e + 2..]);
        if timestamp > I64_MAX || count > U64_MAX then None else Some(Key(timestamp, count))
  }

  // The texts the regular expression T([[:digit:]]+)ns([[:digit:]]+) matches.
  ghost predicate Matches(s: string, first: string, second: string)
  {
    && first != "" && AllDigits(first) && second != "" && AllDigits(second)
    && s == "T" + first + "ns" + second
  }

  lemma {:induction false} MatchIsUnique(s: string, first: string, second: string)
    requires Matches(s, first, second)
    ensures s != "" && s[0] == 'T'
    ensures var e := DigitsEnd(s, 1);
      e == |first| + 1 && s[1..e] == first && "ns" <= s[e..] && s[e + 2..] == second && DigitsEnd(s, e + 2) == |s|
  {
    var e := 1 + |first|;
    assert s[1..e] == first && s[e] == 'n' && s[e + 1] == 's' && s[e + 2..] == second;
    forall k | 1 <= k < e ensures IsDigit(s[k]) { assert s[k] == first[k - 1]; }
    forall k | e + 2 <= k < |s| ensures IsDigit(s[k]) { assert s[k] == second[k - e - 2]; }
    assert DigitsEnd(s, 1) == e;
    assert s[e..][..2] == "ns";
  }

  lemma {:induction false} Framed(s: string, e: nat)
    requires 1 <= e && e + 2 <= |s| && s[0] == 'T' && "ns" <= s[e..]
    ensures s == "T" + s[1..e] + "ns" + s[e + 2..]
  {
    assert s[e..] == "ns" + s[e + 2..];
    assert s == s[..e] + s[e..] && s[..e] == "T" + s[1..e];
  }

  lemma {:induction false} ParsedMatches(s: string)
    requires FromBytes(s).Some?
    ensures var e := DigitsEnd(s, 1);
      e + 2 <= |s| && Matches(s, s[1..e], s[e + 2..]) && FromBytes(s).value == Key(Value(s[1..e]), Value(s[e + 2..]))
  {
    Framed(s, DigitsEnd(s, 1));
  }

  /** FromBytes accepts exactly the matching texts whose numbers fit, and returns these numbers. */
  lemma {:induction false} ParserAcceptsFormat(s: string, k: Key)
    ensures FromBytes(s) == Some(k) <==>
      exists first, second :: Matches(s, first, second)
        && Value(first) <= I64_MAX && Value(second) <= U64_MAX && k == Key(Value(first), Value(second))
  {
    if FromBytes(s) == Some(k) {
      ParsedMatches(s);
    }
    forall first, second | Matches(s, first, second)
        && Value(first) <= I64_MAX && Value(second) <= U64_MAX && k == Key(Value(first), Value(second))
      ensures FromBytes(s) == Some(k)
    {
      MatchIsUnique(s, first, second);
    }
  }

  lemma {:induction false} DigitsValue(n: nat, width: nat)
    requires n < Pow10(width)
    ensures Value(Digits(n, width)) == n
  {
    if width > 0 {
      DigitsValue(n / 10, width - 1);
      assert Digits(n, width)[..width - 1] == Digits(n / 10, width - 1);
    }
  }

  /** Printing and parsing gives the key back, with a negative timestamp read as 0. */
  lemma {:induction false} RoundTrip(k: Key)
    requires InRange(k)
    ensures FromBytes(ToBytes(k)) == Some(Clamped(k))
    ensures FromBytes(ToBytes(k)) == Some(k) <==> k.timestamp >= 0
  {
    PrintedForm(k);
    Pow10Twenty();
    DigitsValue(Clamped(k).timestamp, WIDTH);
    DigitsValue(k.count, WIDTH);
    assert Matches(ToBytes(k), Digits(Clamped(k).timestamp, WIDTH), Digits(k.count, WIDTH));
    ParserAcceptsFormat(ToBytes(k), Clamped(k));
  }

  // ---------------------------------------------------------------- comparing

  /** std::memcmp over the common length and then the lengths, as a sign. */
  function CompareBytes(a: string, b: string): int
  {
    if a == "" || b == "" then (if |a| < |b| then -1 else if |a| > |b| then 1 else 0)
    else if a[0] < b[0] then -1
    else if a[0] > b[0] then 1
    else CompareBytes(a[1..], b[1..])
  }

  function Compare(lhs: Key, rhs: Key): int
    requires InRange(lhs) && InRange(rhs)
  {
    CompareBytes(ToBytes(lhs), ToBytes(rhs))
  }

  function CompareNumbers(m: int, n: int): int
  {
    if m < n then -1 else if m > n then 1 else 0
  }

  /** The numeric order: timestamp first, negative ones as 0, then the counter. */
  function CompareKeys(lhs: Key, rhs: Key): int
  {
    var t := CompareNumbers(Clamped(lhs).timestamp, Clamped(rhs).timestamp);
    if t != 0 then t else CompareNumbers(lhs.count, rhs.count)
  }

  lemma {:induction false} CompareConcat(a: string, b: string, x: string, y: string)
    requires |a| == |b|
    ensures CompareBytes(a + x, b + y) == if CompareBytes(a, b) != 0 then CompareBytes(a, b) else CompareBytes(x, y)
  {
    if a == "" {
      assert a + x == x && b + y == y;
    } else {
      assert (a + x)[1..] == a[1..] + x && (b + y)[1..] == b[1..] + y;
      CompareConcat(a[1..], b[1..], x, y);
    }
  }

  lemma {:induction false} CompareSelf(a: string)
    ensures CompareBytes(a, a) == 0
  {
    if a != "" { CompareSelf(a[1..]); }
  }

  lemma {:induction false} CompareDigits(m: nat, n: nat, width: nat)
    requires m < Pow10(width) && n < Pow10(width)
    ensures CompareBytes(Digits(m, width), Digits(n, width)) == CompareNumbers(m, n)
  {
    if width > 0 {
      CompareDigits(m / 10, n / 10, width - 1);
      CompareConcat(Digits(m / 10, width - 1), Digits(n / 10, width - 1), [DigitChar(m % 10)], [DigitChar(n % 10)]);
      CompareChars(DigitChar(m % 10), DigitChar(n % 10));
    }
  }

  lemma {:induction false} CompareChars(c: char, d: char)
    ensures CompareBytes([c], [d]) == if c < d then -1 else if c > d then 1 else 0
  {
    assert [c][1..] == "" && [d][1..] == "";
  }

  // The fixed texts around the numbers do not influence the comparison.
  lemma {:induction false} CompareLayout(a: string, b: string, x: string, y: string)
    requires |a| == |b|
    ensures CompareBytes("T" + a + "ns" + x, "T" + b + "ns" + y)
            == if CompareBytes(a, b) != 0 then CompareBytes(a, b) else CompareBytes(x, y)
  {
    assert "T" + a + "ns" + x == ("T" + a) + ("ns" + x) && "T" + b + "ns" + y == ("T" + b) + ("ns" + y);
    CompareConcat("T" + a, "T" + b, "ns" + x, "ns" + y);
    CompareConcat("T", "T", a, b);
    CompareConcat("ns", "ns", x, y);
    CompareSelf("T");
    CompareSelf("ns");
  }

  /** Comparing the printed forms byte by byte is comparing the numbers, over the whole 64-bit
      range. */
  lemma {:induction false} CompareIsNumeric(lhs: Key, rhs: Key)
    requires InRange(lhs) && InRange(rhs)
    ensures Compare(lhs, rhs) == CompareKeys(lhs, rhs)
  {
    PrintedForm(lhs);
    PrintedForm(rhs);
    Pow10Twenty();
    CompareDigits(Clamped(lhs).timestamp, Clamped(rhs).timestamp, WIDTH);
    CompareDigits(lhs.count, rhs.count, WIDTH);
    CompareLayout(Digits(Clamped(lhs).timestamp, WIDTH), Digits(Clamped(rhs).timestamp, WIDTH),
                  Digits(lhs.count, WIDTH), Digits(rhs.count, WIDTH));
  }

  /** Two keys print alike exactly when they agree up to a negative timestamp. */
  lemma {:induction false} SameBytes(lhs: Key, rhs: Key)
    requires InRange(lhs) && InRange(rhs)
    ensures ToBytes(lhs) == ToBytes(rhs) <==> Clamped(lhs) == Clamped(rhs)
  {
    RoundTrip(lhs);
    RoundTrip(rhs);
    PrintedForm(lhs);
    PrintedForm(rhs);
  }
}
