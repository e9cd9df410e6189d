/**
 * Kafka producer records and their headers, and the two value conversions
 * the invalid-message routers apply to header bytes: `new BigInteger(byte[])`
 * (big-endian two's complement) and the decimal rendering of `%d`.
 */
module Records {
  import opened Wrappers
  import opened Events

  /** One unsigned octet of a header value. */
  type Byte = b: int | 0 <= b < 256

  /** A record header: a key and its raw value. */
  datatype Header = Header(key: string, value: seq<Byte>)

  /**
   * `ProducerRecord<String, ResourceChangedData>`: topic, optional partition,
   * optional timestamp, nullable key, value and headers. Kafka rejects a
   * null topic at construction, so a record's topic is never null.
   */
  datatype ProducerRecord = ProducerRecord(
    topic: string,
    partition: Option<int>,
    timestamp: Option<int>,
    key: Option<string>,
    value: ResourceChangedData,
    headers: seq<Header>)

  /** `new ProducerRecord<>(topic, key, value)`: no partition, no timestamp, no headers. */
  function NewRecord(topic: string, key: Option<string>, value: ResourceChangedData): (r: ProducerRecord)
    ensures r.topic == topic && r.key == key && r.value == value
    ensures r.partition.None? && r.timestamp.None? && r.headers == []
    ensures forall k :: LastHeader(r.headers, k).None?
  {
    ProducerRecord(topic, None, None, key, value, [])
  }

  /**
   * `Headers.lastHeader(key)`: the value of the last header with this key,
   * or `None` (Java's null) when no header has it.
   */
  function LastHeader(headers: seq<Header>, key: string): (r: Option<seq<Byte>>)
    ensures r.None? <==> forall i :: 0 <= i < |headers| ==> headers[i].key != key
    ensures r.Some? ==> exists i :: IsLastWithKey(headers, key, i) && headers[i].value == r.value
  {
    match LastIndex(headers, key, |headers|)
    case None => None
    case Some(i) =>
      assert IsLastWithKey(headers, key, i);
      Some(headers[i].value)
  }

  /** The scan from the end of the first `n` headers: the last position among them whose header has the key. */
  function LastIndex(headers: seq<Header>, key: string, n: nat): (r: Option<nat>)
    requires n <= |headers|
    ensures r.Some? ==> r.value < n && headers[r.value].key == key
                        && forall j :: r.value < j < n ==> headers[j].key != key
    ensures r.None? ==> forall j :: 0 <= j < n ==> headers[j].key != key
  {
    if n == 0 then None
    else if headers[n - 1].key == key then Some(n - 1)
    else LastIndex(headers, key, n - 1)
  }

  /** Header `i` has the key and no later header has it. */
  predicate IsLastWithKey(headers: seq<Header>, key: string, i: int) {
    0 <= i < |headers| && headers[i].key == key && forall j :: i < j < |headers| ==> headers[j].key != key
  }

  /** The last header carrying the key is the one `lastHeader` returns. */
  lemma LastHeaderIsLast(headers: seq<Header>, key: string, i: int)
    requires IsLastWithKey(headers, key, i)
    ensures LastHeader(headers, key) == Some(headers[i].value)
  {
    assert LastHeader(headers, key).Some?;
    var j :| IsLastWithKey(headers, key, j) && headers[j].value == LastHeader(headers, key).value;
    assert headers[i].key == key && headers[j].key == key;
    assert !(i < j) && !(j < i);
  }

  /** A header appended after the others wins over every earlier header with its key. */
  lemma AppendedHeaderWins(headers: seq<Header>, key: string, value: seq<Byte>)
    ensures LastHeader(headers + [Header(key, value)], key) == Some(value)
  {
    LastHeaderIsLast(headers + [Header(key, value)], key, |headers|);
  }

  /** Headers with other keys, appended later, do not hide an earlier one. */
  lemma OtherKeysDoNotHide(headers: seq<Header>, others: seq<Header>, key: string)
    requires forall i :: 0 <= i < |others| ==> others[i].key != key
    ensures LastHeader(headers + others, key) == LastHeader(headers, key)
  {
    var all := headers + others;
    if LastHeader(headers, key).Some? {
      var i :| IsLastWithKey(headers, key, i) && headers[i].value == LastHeader(headers, key).value;
      assert forall j :: i < j < |all| ==> all[j].key != key by {
        forall j | i < j < |all| ensures all[j].key != key {
          if j >= |headers| {
            assert all[j] == others[j - |headers|];
          }
        }
      }
      LastHeaderIsLast(all, key, i);
    } else {
      assert forall j :: 0 <= j < |all| ==> all[j].key != key by {
        forall j | 0 <= j < |all| ensures all[j].key != key {
          if j >= |headers| {
            assert all[j] == others[j - |headers|];
          }
        }
      }
    }
  }

  function Pow256(n: nat): (r: nat)
    ensures r >= 1
  {
    if n == 0 then 1 else 256 * Pow256(n - 1)
  }

  /** The bytes read as an unsigned big-endian number; the first byte is the most significant. */
  function Unsigned(bytes: seq<Byte>): (r: nat)
    ensures r < Pow256(|bytes|)
    ensures bytes != [] ==> bytes[0] * Pow256(|bytes| - 1) <= r < (bytes[0] + 1) * Pow256(|bytes| - 1)
  {
    if bytes == [] then 0
    else
      var p := Pow256(|bytes| - 1);
      var rest := Unsigned(bytes[1..]);
      var b: nat := bytes[0];
      assert (b + 1) * p == b * p + p;
      MultiplyMonotonic(b + 1, 256, p);
      bytes[0] * p + rest
  }

  lemma MultiplyMonotonic(a: nat, b: nat, p: nat)
    requires a <= b
    ensures a * p <= b * p
  {
    assert b * p == a * p + (b - a) * p;
  }

  /**
   * `new BigInteger(byte[])`: the big-endian two's-complement value of the
   * bytes. A zero-length array is a `NumberFormatException`, here `None`.
   */
  function BigIntegerOf(bytes: seq<Byte>): (r: Option<int>)
    ensures r.None? <==> bytes == []
    ensures r.Some? ==> (r.value < 0 <==> bytes[0] >= 128)
    ensures r.Some? ==> -128 * Pow256(|bytes| - 1) <= r.value < 128 * Pow256(|bytes| - 1)
  {
    if bytes == [] then None
    else
      var p := Pow256(|bytes| - 1);
      var b: nat := bytes[0];
      if b < 128 then
        MultiplyMonotonic(b + 1, 128, p);
        Some(Unsigned(bytes))
      else
        MultiplyMonotonic(128, b, p);
        Some(Unsigned(bytes) - 256 * p)
  }

  /** `width` bytes holding `u` unsigned, most significant first. */
  function UnsignedBytes(u: nat, width: nat): (r: seq<Byte>)
    requires u < Pow256(width)
    ensures |r| == width
  {
    if width == 0 then []
    else
      var p := Pow256(width - 1);
      DivisionBound(u, p);
      var q: Byte, m: nat := u / p, u % p;
      [q] + UnsignedBytes(m, width - 1)
  }

  lemma DivisionBound(u: nat, p: nat)
    requires p >= 1 && u < 256 * p
    ensures u / p < 256
    ensures u / p < 128 <==> u < 128 * p
  {
    var q, m := u / p, u % p;
    assert u == q * p + m && 0 <= m < p;
    if q >= 256 {
      MultiplyMonotonic(256, q, p);
    }
    if q >= 128 {
      MultiplyMonotonic(128, q, p);
    } else {
      MultiplyMonotonic(q + 1, 128, p);
      assert (q + 1) * p == q * p + p;
    }
  }

  /**
   * A value written big-endian in two's complement on `width` bytes, as a
   * Kafka header carries a partition (4 bytes) or an offset (8 bytes).
   */
  function TwosComplement(v: int, width: nat): (r: seq<Byte>)
    requires width >= 1 && -128 * Pow256(width - 1) <= v < 128 * Pow256(width - 1)
    ensures |r| == width
  {
    UnsignedBytes(if v >= 0 then v else v + Pow256(width), width)
  }

  lemma {:induction false} UnsignedRoundTrip(u: nat, width: nat)
    requires u < Pow256(width)
    ensures Unsigned(UnsignedBytes(u, width)) == u
    decreases width
  {
    if width > 0 {
      var p := Pow256(width - 1);
      UnsignedRoundTrip(u % p, width - 1);
      LeadingByte(u, width);
      QuotientAndRemainder(u, p);
    }
  }

  lemma QuotientAndRemainder(u: nat, p: nat)
    requires p >= 1
    ensures u == (u / p) * p + u % p
  {
  }

  /** The first of the written bytes is the quotient by the weight of the remaining ones. */
  lemma LeadingByte(u: nat, width: nat)
    requires width > 0 && u < Pow256(width)
    ensures Unsigned(UnsignedBytes(u, width))
            == (u / Pow256(width - 1)) * Pow256(width - 1) + Unsigned(UnsignedBytes(u % Pow256(width - 1), width - 1))
  {
    var p := Pow256(width - 1);
    DivisionBound(u, p);
    var bytes := UnsignedBytes(u, width);
    assert bytes[0] == u / p;
    assert bytes[1..] == UnsignedBytes(u % p, width - 1);
  }

  /** Decoding a header written in two's complement gives back the number that was written. */
  lemma TwosComplementRoundTrip(v: int, width: nat)
    requires width >= 1 && -128 * Pow256(width - 1) <= v < 128 * Pow256(width - 1)
    ensures BigIntegerOf(TwosComplement(v, width)) == Some(v)
  {
    var p := Pow256(width - 1);
    var u := if v >= 0 then v else v + Pow256(width);
    UnsignedRoundTrip(u, width);
    DivisionBound(u, p);
  }

  /** The one-byte headers [0], [1] and [255] decode to 0, 1 and -1. */
  lemma SingleByteValues()
    ensures BigIntegerOf([0]) == Some(0)
    ensures BigIntegerOf([1]) == Some(1)
    ensures BigIntegerOf([255]) == Some(-1)
  {
    assert [0][1..] == [] && [1][1..] == [] && [255][1..] == [];
  }

  /** The character of a decimal digit. */
  function DigitChar(d: nat): (c: char)
    requires d < 10
    ensures '0' <= c <= '9' && c as int - '0' as int == d
  {
    ['0', '1', '2', '3', '4', '5', '6', '7', '8', '9'][d]
  }

  predicate AllDigits(s: string) {
    forall k :: 0 <= k < |s| ==> '0' <= s[k] <= '9'
  }

  /** The number a string of decimal digits denotes. */
  function DecimalValue(s: string): (r: nat)
    requires AllDigits(s)
  {
    if s == [] then 0 else 10 * DecimalValue(s[..|s| - 1]) + (s[|s| - 1] as int - '0' as int)
  }

  /** The decimal digits of `n`, without leading zeros. */
  function NatToString(n: nat): (s: string)
    ensures s != [] && AllDigits(s)
    ensures |s| > 1 ==> s[0] != '0'
  {
    if n < 10 then [DigitChar(n)]
    else
      var front := NatToString(n / 10);
      assert (front + [DigitChar(n % 10)])[0] == front[0];
      front + [DigitChar(n % 10)]
  }

  /** Reading the rendered digits back gives the number. */
  lemma {:induction false} NatToStringRoundTrip(n: nat)
    ensures DecimalValue(NatToString(n)) == n
  {
    if n >= 10 {
      var s := NatToString(n);
      assert s[..|s| - 1] == NatToString(n / 10);
      NatToStringRoundTrip(n / 10);
    }
  }

  /** A non-empty digit string that does not start with '0' denotes at least 1. */
  lemma {:induction false} LeadingDigitPositive(s: string)
    requires s != [] && AllDigits(s) && s[0] != '0'
    ensures DecimalValue(s) >= 1
    decreases |s|
  {
    if |s| > 1 {
      LeadingDigitPositive(s[..|s| - 1]);
    }
  }

  /**
   * Decimal notation without leading zeros is unique: any such digit string
   * denoting `n` is the one `NatToString` renders.
   */
  lemma {:induction false} CanonicalDigitsUnique(s: string, n: nat)
    requires s != [] && AllDigits(s) && (|s| > 1 ==> s[0] != '0') && DecimalValue(s) == n
    ensures s == NatToString(n)
    decreases |s|
  {
    var front := s[..|s| - 1];
    if |s| > 1 {
      LeadingDigitPositive(front);
      CanonicalDigitsUnique(front, DecimalValue(front));
      assert s == front + [s[|s| - 1]];
    }
  }

  /**
   * `%d` of an integer: a minus sign exactly for negative numbers, then the
   * digits of its magnitude, never empty and without leading zeros.
   */
  function IntToString(i: int): (s: string)
    ensures i < 0 ==> |s| >= 2 && s[0] == '-' && AllDigits(s[1..]) && DecimalValue(s[1..]) == -i
    ensures i < 0 ==> |s| > 2 ==> s[1] != '0'
    ensures i >= 0 ==> s != [] && AllDigits(s) && DecimalValue(s) == i
    ensures i >= 0 ==> |s| > 1 ==> s[0] != '0'
  {
    if i < 0 then
      NatToStringRoundTrip(-i);
      assert ("-" + NatToString(-i))[1..] == NatToString(-i);
      "-" + NatToString(-i)
    else
      NatToStringRoundTrip(i);
      NatToString(i)
  }

  /** Any sign-and-digits text of `i` without leading zeros is exactly what `%d` prints. */
  lemma IntToStringUnique(i: int, s: string)
    requires i >= 0 ==> s != [] && AllDigits(s) && (|s| > 1 ==> s[0] != '0') && DecimalValue(s) == i
    requires i < 0 ==> |s| >= 2 && s[0] == '-' && AllDigits(s[1..]) && (|s| > 2 ==> s[1] != '0')
                       && DecimalValue(s[1..]) == -i
    ensures s == IntToString(i)
  {
    if i < 0 {
      CanonicalDigitsUnique(s[1..], -i);
      assert s == "-" + s[1..];
    } else {
      CanonicalDigitsUnique(s, i);
    }
  }

  /** The renderings of the default -1 and of the one-byte values 0 and 1. */
  lemma SmallIntStrings()
    ensures IntToString(0) == "0" && IntToString(1) == "1" && IntToString(-1) == "-1"
  {
    assert NatToString(1) == "1";
  }
}
