/**
 * The fake-data catalog of the trace generator: the packed peer address,
 * the synthetic span and pause durations, and the operation tables of the
 * two simulated database flavours. Every `rand.Intn(n)` is modelled by a
 * raw draw that `Intn` reduces into its range.
 */
module FakeData {

  /** Go's time.Duration: a signed count of nanoseconds. */
  type Duration = int

  const Millisecond: Duration := 1_000_000
  const Second: Duration := 1000 * Millisecond

  /**
   * rand.Intn(n): a raw draw taken into [0, n) by removing whole multiples
   * of n (its remainder modulo n, see IntnIsRemainder); every value there
   * is reachable.
   */
  function Intn(draw: nat, n: nat): (r: nat)
    requires 0 < n
    ensures r < n
    ensures draw < n ==> r == draw
    decreases draw
  {
    if draw < n then draw else Intn(draw - n, n)
  }

  /** Quotient and remainder are unique. */
  lemma DivModUnique(a: int, n: int, q: int, r: int)
    requires 0 < n && a == q * n + r && 0 <= r < n
    ensures a / n == q && a % n == r
  {
    var q', r' := a / n, a % n;
    var k := q - q';
    assert k * n == r' - r by {
      assert a == q' * n + r';
      assert q * n - q' * n == (q - q') * n;
    }
  }

  /** Removing a multiple of n keeps the remainder. */
  lemma RemainderShift(a: nat, n: nat)
    requires 0 < n <= a
    ensures (a - n) % n == a % n
  {
    var q, r := (a - n) / n, (a - n) % n;
    assert a == (q + 1) * n + r;
    DivModUnique(a, n, q + 1, r);
  }

  lemma {:induction false} IntnIsRemainder(draw: nat, n: nat)
    requires 0 < n
    ensures Intn(draw, n) == draw % n
    decreases draw
  {
    if n <= draw {
      IntnIsRemainder(draw - n, n);
      RemainderShift(draw, n);
    }
  }

  /** int(d / time.Millisecond): Go's integer division truncates toward zero. */
  function WholeMilliseconds(d: Duration): (q: int)
    ensures 0 <= d ==> 0 <= q && q * Millisecond <= d < q * Millisecond + Millisecond
    ensures d < 0 ==> q <= 0 && d <= q * Millisecond < d + Millisecond
  {
    if 0 <= d then d / Millisecond else -((-d) / Millisecond)
  }

  /** A byte of an address, and Go's uint32. */
  newtype Byte = x: int | 0 <= x < 0x100
  newtype Uint32 = x: int | 0 <= x < 0x1_0000_0000

  /** The four bytes of a dotted-quad address (To4 of fake.IPv4()), most significant first. */
  datatype IPv4 = IPv4(b0: Byte, b1: Byte, b2: Byte, b3: Byte)

  /**
   * fakeIP: the address packed big-endian into a uint32. The source or-s
   * the bytes shifted by 24, 16, 8 and 0 bits; those occupy disjoint bits,
   * so the packing is this weighted sum (see ShiftOrIsWeightedSum).
   */
  function FakeIP(ip: IPv4): (x: Uint32)
    ensures x as int == ip.b0 as int * 0x100_0000 + ip.b1 as int * 0x1_0000 + ip.b2 as int * 0x100 + ip.b3 as int
  {
    (ip.b0 as int * 0x100_0000 + ip.b1 as int * 0x1_0000 + ip.b2 as int * 0x100 + ip.b3 as int) as Uint32
  }

  /** The bytes of a packed address, taken back out most significant first. */
  function Octets(x: Uint32): IPv4 {
    IPv4((x as int / 0x100_0000) as Byte, (x as int / 0x1_0000 % 0x100) as Byte,
         (x as int / 0x100 % 0x100) as Byte, (x as int % 0x100) as Byte)
  }

  /** Unpacking the packed address recovers each byte. */
  lemma FakeIPRoundTrip(ip: IPv4)
    ensures Octets(FakeIP(ip)) == ip
  {
    var x := FakeIP(ip) as int;
    var (b0, b1, b2, b3) := (ip.b0 as int, ip.b1 as int, ip.b2 as int, ip.b3 as int);
    assert x / 0x100 == b0 * 0x1_0000 + b1 * 0x100 + b2;
    assert x / 0x1_0000 == b0 * 0x100 + b1;
  }

  /** Every uint32 is the packing of its own bytes, so packing is a bijection. */
  lemma FakeIPOnto(x: Uint32)
    ensures FakeIP(Octets(x)) == x
  {
    var n := x as int;
    assert n / 0x1_0000 == n / 0x100_0000 * 0x100 + n / 0x1_0000 % 0x100;
    assert n / 0x100 == n / 0x1_0000 * 0x100 + n / 0x100 % 0x100;
  }

  /** The source's packing: the uint32 conversions of the bytes shifted into place and or-ed together. */
  function ShiftOr(a: bv32, b: bv32, c: bv32, d: bv32): bv32 {
    d | (c << 8) | (b << 16) | (a << 24)
  }

  /** For a byte, shifting left by 8, 16 or 24 is multiplying by 2^8, 2^16 or 2^24. */
  lemma ShiftIsMultiply(y: bv32)
    requires y < 0x100
    ensures y << 8 == y * 0x100 && y << 16 == y * 0x1_0000 && y << 24 == y * 0x100_0000
  {
  }

  /** Shifted bytes occupy disjoint bits, so or-ing them adds them. */
  lemma DisjointOrIsSum(a: bv32, b: bv32, c: bv32, d: bv32)
    requires a < 0x100 && b < 0x100 && c < 0x100 && d < 0x100
    ensures d | (c << 8) | (b << 16) | (a << 24) == (a << 24) + (b << 16) + (c << 8) + d
  {
  }

  /** For bytes, or-ing the shifted values is the weighted sum a·2^24 + b·2^16 + c·2^8 + d. */
  lemma ShiftOrIsWeightedSum(a: bv32, b: bv32, c: bv32, d: bv32)
    requires a < 0x100 && b < 0x100 && c < 0x100 && d < 0x100
    ensures ShiftOr(a, b, c, d) == a * 0x100_0000 + b * 0x1_0000 + c * 0x100 + d
  {
    DisjointOrIsSum(a, b, c, d);
    ShiftIsMultiply(a);
    ShiftIsMultiply(b);
    ShiftIsMultiply(c);
  }

  /** Appending a byte below a 16-bit value: its value is byte·2^16 plus the value. */
  lemma AppendByte16(hi: bv8, lo: bv8)
    ensures (((hi as bv16) << 8) | (lo as bv16)) as int == hi as int * 0x100 + lo as int
  {
  }

  lemma AppendByte24(hi: bv8, lo: bv16)
    ensures (((hi as bv24) << 16) | (lo as bv24)) as int == hi as int * 0x1_0000 + lo as int
  {
  }

  lemma AppendByte32(hi: bv8, lo: bv24)
    ensures (((hi as bv32) << 24) | (lo as bv32)) as int == hi as int * 0x100_0000 + lo as int
  {
  }

  /** uint32(b): an 8-bit byte zero-extended to 32 bits. */
  function Widen(b: bv8): bv32 {
    b as bv32
  }

  /** The shift-or of four widened bytes, built up one byte at a time from the lowest. */
  lemma ShiftOrByBytes(a: bv8, b: bv8, c: bv8, d: bv8)
    ensures var lo24 := ((b as bv24) << 16) | ((((c as bv16) << 8) | (d as bv16)) as bv24);
            ShiftOr(Widen(a), Widen(b), Widen(c), Widen(d)) == ((a as bv32) << 24) | (lo24 as bv32)
  {
  }

  /** The value of the shift-or of four bytes is their big-endian weighted sum. */
  lemma ShiftOrValue(a: bv8, b: bv8, c: bv8, d: bv8)
    ensures ShiftOr(Widen(a), Widen(b), Widen(c), Widen(d)) as int
            == a as int * 0x100_0000 + b as int * 0x1_0000 + c as int * 0x100 + d as int
  {
    var lo16 := ((c as bv16) << 8) | (d as bv16);
    var lo24 := ((b as bv24) << 16) | (lo16 as bv24);
    ShiftOrByBytes(a, b, c, d);
    AppendByte16(c, d);
    AppendByte24(b, lo16);
    AppendByte32(a, lo24);
  }

  /**
   * FakeIP is the source's shift-or packing: for the bytes of the address
   * as 8-bit words, the or of the widened, shifted bytes read as an
   * unsigned number is the packed address.
   */
  lemma FakeIPIsShiftOr(ip: IPv4, a: bv8, b: bv8, c: bv8, d: bv8)
    requires a as int == ip.b0 as int && b as int == ip.b1 as int
    requires c as int == ip.b2 as int && d as int == ip.b3 as int
    ensures FakeIP(ip) as int == ShiftOr(Widen(a), Widen(b), Widen(c), Widen(d)) as int
  {
    ShiftOrValue(a, b, c, d);
  }

  /** fakeSpanDuration: (rand.Intn(10) + rand.Intn(100)) milliseconds. */
  function FakeSpanDuration(low: nat, high: nat): (d: Duration)
    ensures 0 <= d <= 108 * Millisecond
    ensures d % Millisecond == 0
  {
    (Intn(low, 10) + Intn(high, 100)) * Millisecond
  }

  /** Every whole number of milliseconds in [0, 108] is a possible span duration. */
  lemma FakeSpanDurationOnto(ms: int)
    requires 0 <= ms <= 108
    ensures exists low: nat, high: nat :: FakeSpanDuration(low, high) == ms * Millisecond
  {
    var low := if ms < 10 then ms else 9;
    assert FakeSpanDuration(low, ms - low) == ms * Millisecond;
  }

  /**
   * fakePausedDuration (value only): rand.Intn(3 + spanDuration/ms)
   * milliseconds; rand.Intn needs a positive bound. The real sleep for that
   * long is not modelled.
   */
  function FakePausedDuration(spanDuration: Duration, draw: nat): (p: Duration)
    requires 0 < 3 + WholeMilliseconds(spanDuration)
    ensures 0 <= p < (3 + WholeMilliseconds(spanDuration)) * Millisecond
    ensures 0 <= spanDuration ==> p <= spanDuration + 2 * Millisecond
    ensures p % Millisecond == 0
  {
    Intn(draw, 3 + WholeMilliseconds(spanDuration)) * Millisecond
  }

  /** The operations of the simulated key-value store (redisApis). */
  const RedisApis: seq<string> := ["Incr", "Set", "HSet", "TTL"]

  /** The operations of the simulated relational store (mysqlApis); "Update" is listed twice. */
  const MysqlApis: seq<string> := ["Query", "Update", "Delete", "Update", "Replace"]

  /** The two flavours have no operation in common. */
  lemma ApiTablesDisjoint()
    ensures forall a :: a in RedisApis ==> a !in MysqlApis
  {
  }
}
