/** Fixed-width machine words and their big-endian images. */
module Words {
  type u8 = x: int | 0 <= x < 0x100
  type u16 = x: int | 0 <= x < 0x1_0000
  type u32 = x: int | 0 <= x < 0x1_0000_0000
  type u64 = x: int | 0 <= x < 0x1_0000_0000_0000_0000
  type i32 = x: int | -0x8000_0000 <= x < 0x8000_0000

  datatype Option<+T> = None | Some(value: T)

  /** A 32-bit counter moved up by one, wrapping. */
  function Following(counter: u32): u32 {
    if counter == 0xFFFF_FFFF then 0 else counter + 1
  }

  function Be16(v: u16): seq<u8> {
    [v / 0x100, v % 0x100]
  }

  function Be32(v: u32): seq<u8> {
    [v / 0x100_0000, v / 0x1_0000 % 0x100, v / 0x100 % 0x100, v % 0x100]
  }

  function Be64(v: u64): seq<u8> {
    Be32(v / 0x1_0000_0000) + Be32(v % 0x1_0000_0000)
  }

  function FromBe16(b: seq<u8>): u16
    requires |b| == 2
  {
    b[0] as int * 0x100 + b[1] as int
  }

  function FromBe32(b: seq<u8>): u32
    requires |b| == 4
  {
    b[0] as int * 0x100_0000 + b[1] as int * 0x1_0000 + b[2] as int * 0x100 + b[3] as int
  }

  function FromBe64(b: seq<u8>): u64
    requires |b| == 8
  {
    FromBe32(b[..4]) as int * 0x1_0000_0000 + FromBe32(b[4..]) as int
  }

  /** Two's complement reading of a 32-bit word. */
  function Signed(v: u32): i32 {
    if v < 0x8000_0000 then v else v - 0x1_0000_0000
  }

  function Unsigned(v: i32): u32 {
    if v >= 0 then v else v + 0x1_0000_0000
  }

  lemma Be16RoundTrips(v: u16, b: seq<u8>)
    requires |b| == 2
    ensures FromBe16(Be16(v)) == v && Be16(FromBe16(b)) == b
    ensures |Be16(v)| == 2 && Be16(v)[0] as int * 0x100 + Be16(v)[1] as int == v
  {
    assert Be16(FromBe16(b))[0] == b[0] && Be16(FromBe16(b))[1] == b[1];
  }

  /** Base-256 digits determine and are determined by a 32-bit word. */
  lemma Digits(v: int, a: int, b: int, c: int, d: int)
    requires 0 <= b < 0x100 && 0 <= c < 0x100 && 0 <= d < 0x100
    ensures v == ((a * 0x100 + b) * 0x100 + c) * 0x100 + d <==>
            a == v / 0x100_0000 && b == v / 0x1_0000 % 0x100 && c == v / 0x100 % 0x100 && d == v % 0x100
  {
    assert v / 0x1_0000 == v / 0x100 / 0x100;
    assert v / 0x100_0000 == v / 0x1_0000 / 0x100;
  }

  /** Writing and reading undo each other, and the first byte weighs most. */
  lemma Be32RoundTrips(v: u32, b: seq<u8>)
    requires |b| == 4
    ensures FromBe32(Be32(v)) == v && Be32(FromBe32(b)) == b
    ensures var w := Be32(v);
            |w| == 4 && w[0] as int * 0x100_0000 + w[1] as int * 0x1_0000 + w[2] as int * 0x100 + w[3] as int == v
  {
    Digits(v, v / 0x100_0000, v / 0x1_0000 % 0x100, v / 0x100 % 0x100, v % 0x100);
    Digits(FromBe32(b), b[0], b[1], b[2], b[3]);
  }

  lemma Be64RoundTrips(v: u64, b: seq<u8>)
    requires |b| == 8
    ensures FromBe64(Be64(v)) == v && Be64(FromBe64(b)) == b
  {
    Be32RoundTrips(v / 0x1_0000_0000, b[..4]);
    Be32RoundTrips(v % 0x1_0000_0000, b[4..]);
    assert Be64(v)[..4] == Be32(v / 0x1_0000_0000) && Be64(v)[4..] == Be32(v % 0x1_0000_0000);
    var w := FromBe64(b);
    assert w / 0x1_0000_0000 == FromBe32(b[..4]) && w % 0x1_0000_0000 == FromBe32(b[4..]);
    assert b == b[..4] + b[4..];
  }

  lemma SignRoundTrips(v: u32, w: i32)
    ensures Unsigned(Signed(v)) == v && Signed(Unsigned(w)) == w
  {
  }

  /** Consecutive big-endian words. */
  function Be32s(ws: seq<u32>): (b: seq<u8>)
    ensures |b| == 4 * |ws|
  {
    if ws == [] then [] else Be32(ws[0]) + Be32s(ws[1..])
  }

  function FromBe32s(b: seq<u8>): (ws: seq<u32>)
    requires |b| % 4 == 0
    ensures |b| == 4 * |ws|
  {
    if b == [] then [] else [FromBe32(b[..4])] + FromBe32s(b[4..])
  }

  function Be64s(ws: seq<u64>): (b: seq<u8>)
    ensures |b| == 8 * |ws|
  {
    if ws == [] then [] else Be64(ws[0]) + Be64s(ws[1..])
  }

  function FromBe64s(b: seq<u8>): (ws: seq<u64>)
    requires |b| % 8 == 0
    ensures |b| == 8 * |ws|
  {
    if b == [] then [] else [FromBe64(b[..8])] + FromBe64s(b[8..])
  }

  lemma {:induction false} Be32sDecode(ws: seq<u32>)
    ensures FromBe32s(Be32s(ws)) == ws
  {
    if ws != [] {
      var b := Be32s(ws);
      assert b[..4] == Be32(ws[0]) && b[4..] == Be32s(ws[1..]);
      Be32RoundTrips(ws[0], Be32(0));
      Be32sDecode(ws[1..]);
    }
  }

  lemma {:induction false} Be32sEncode(b: seq<u8>)
    requires |b| % 4 == 0
    ensures Be32s(FromBe32s(b)) == b
  {
    if b != [] {
      Be32RoundTrips(0, b[..4]);
      Be32sEncode(b[4..]);
      assert FromBe32s(b)[1..] == FromBe32s(b[4..]);
    }
  }

  lemma {:induction false} Be64sDecode(ws: seq<u64>)
    ensures FromBe64s(Be64s(ws)) == ws
  {
    if ws != [] {
      var b := Be64s(ws);
      assert b[..8] == Be64(ws[0]) && b[8..] == Be64s(ws[1..]);
      Be64RoundTrips(ws[0], Be64(0));
      Be64sDecode(ws[1..]);
    }
  }

  lemma {:induction false} Be64sEncode(b: seq<u8>)
    requires |b| % 8 == 0
    ensures Be64s(FromBe64s(b)) == b
  {
    if b != [] {
      Be64RoundTrips(0, b[..8]);
      Be64sEncode(b[8..]);
      assert FromBe64s(b)[1..] == FromBe64s(b[8..]);
    }
  }
}

/** Quotients and remainders of products of variables. */
module Division {
  lemma Remainder(x: nat, d: nat, q: nat, r: nat)
    requires d > 0 && x == d * q + r && r < d
    ensures x % d == r && x / d == q
  {
    MultiplesApart(d, q, x / d);
    MultiplesApart(d, x / d, q);
  }

  /** A larger factor makes a product larger by at least `d`. */
  lemma MultiplesApart(d: nat, p: nat, q: nat)
    ensures p < q ==> d * p + d <= d * q
  {
    if p < q {
      assert d * q == d * p + d * (q - p) && q - p >= 1;
      assert d * (q - p) >= d;
    }
  }

  lemma MultipleMod(q: nat, a: nat)
    requires a > 0
    ensures (a * q) % a == 0
  {
    Remainder(a * q, a, q, 0);
  }
}
