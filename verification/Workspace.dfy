/** Alignment on 64-bit sizes, with the bit tricks of the source spelled out on numbers. */
module Alignment {
  import opened Division

  const MAX_SIZE := 0xFFFF_FFFF_FFFF_FFFF

  function Pow2(k: nat): (p: nat)
    ensures p >= 1
  {
    if k == 0 then 1 else 2 * Pow2(k - 1)
  }

  /** Bitwise conjunction. */
  function And(x: nat, y: nat): nat {
    if x == 0 || y == 0 then 0 else 2 * And(x / 2, y / 2) + (x % 2) * (y % 2)
  }

  /** Bitwise complement of a 64-bit word. */
  function Not(x: nat): nat
    requires x <= MAX_SIZE
  {
    MAX_SIZE - x
  }

  predicate IsPowerOfTwo(v: nat) {
    v != 0 && And(v, v - 1) == 0
  }

  /** Rounds up as the source does; the sum wraps. */
  function AlignUp(value: nat, alignment: nat): nat
    requires 0 < alignment <= MAX_SIZE
  {
    And((value + alignment - 1) % (MAX_SIZE + 1), Not(alignment - 1))
  }

  // ---- The bit tricks mean what they are meant to ----

  lemma {:induction false} AndSelf(x: nat)
    ensures And(x, x) == x
  {
    if x != 0 {
      AndSelf(x / 2);
      assert (x % 2) * (x % 2) == x % 2;
    }
  }

  lemma AndOdd(v: nat)
    requires v % 2 == 1
    ensures And(v, v - 1) == v - 1
  {
    if v > 1 {
      assert (v - 1) / 2 == v / 2 && (v - 1) % 2 == 0;
      AndSelf(v / 2);
    }
  }

  /** The test `v & (v - 1)` singles out exactly the powers of two. */
  lemma {:induction false} PowerOfTwoTest(v: nat)
    ensures IsPowerOfTwo(v) <==> exists k: nat :: v == Pow2(k)
  {
    if v % 2 == 1 {
      AndOdd(v);
      if v == 1 {
        assert v == Pow2(0);
      } else {
        forall k: nat ensures v != Pow2(k) {
        }
      }
    } else if v > 0 {
      PowerOfTwoTest(v / 2);
      assert (v - 1) / 2 == v / 2 - 1 && v % 2 == 0;
      assert And(v, v - 1) == 2 * And(v / 2, v / 2 - 1);
      if exists k: nat :: v / 2 == Pow2(k) {
        var k: nat :| v / 2 == Pow2(k);
        assert v == Pow2(k + 1);
      }
      if exists k: nat :: v == Pow2(k) {
        var k: nat :| v == Pow2(k);
        assert k > 0 && v / 2 == Pow2(k - 1);
      }
    }
  }

  lemma ModHalf(x: nat, m: nat)
    requires m > 0
    ensures x % (2 * m) == 2 * ((x / 2) % m) + x % 2
  {
    var h := x / 2;
    var q := h / m;
    var r := h % m;
    assert h == m * q + r;
    assert x == (2 * m) * q + (2 * r + x % 2);
    Remainder(x, 2 * m, q, 2 * r + x % 2);
  }

  lemma {:induction false} AndAll(x: nat, w: nat)
    requires x < Pow2(w)
    ensures And(x, Pow2(w) - 1) == x
  {
    if x != 0 {
      assert (Pow2(w) - 1) / 2 == Pow2(w - 1) - 1 && (Pow2(w) - 1) % 2 == 1;
      AndAll(x / 2, w - 1);
    }
  }

  lemma {:induction false} Pow2Grows(k: nat, w: nat)
    requires k <= w
    ensures Pow2(k) <= Pow2(w)
    decreases w
  {
    if k < w {
      Pow2Grows(k, w - 1);
    }
  }

  /** Masking with the complement of 2^k - 1 rounds down to a multiple of 2^k. */
  lemma {:induction false} AndMask(x: nat, w: nat, k: nat)
    requires x < Pow2(w) && k <= w && Pow2(k) <= Pow2(w)
    ensures And(x, Pow2(w) - Pow2(k)) == x - x % Pow2(k)
    decreases w
  {
    if k == 0 {
      AndAll(x, w);
    } else if x != 0 {
      Pow2Grows(k - 1, w - 1);
      AndMask(x / 2, w - 1, k - 1);
      ModHalf(x, Pow2(k - 1));
      AndEven(x, Pow2(w - 1) - Pow2(k - 1));
    }
  }

  lemma AndEven(x: nat, m: nat)
    ensures And(x, 2 * m) == 2 * And(x / 2, m)
  {
    if x != 0 && m != 0 {
      assert (2 * m) / 2 == m && (2 * m) % 2 == 0;
    }
  }

  lemma SixtyFour()
    ensures Pow2(64) == MAX_SIZE + 1
  {
    assert Pow2(8) == 0x100;
    assert Pow2(16) == 0x1_0000;
    assert Pow2(24) == 0x100_0000;
    assert Pow2(32) == 0x1_0000_0000;
    assert Pow2(40) == 0x100_0000_0000;
    assert Pow2(48) == 0x1_0000_0000_0000;
    assert Pow2(56) == 0x100_0000_0000_0000;
  }

  /** Rounding up in closed form, for any power of two that fits a word. */
  lemma AlignUpIs(value: nat, a: nat)
    requires IsPowerOfTwo(a) && a <= MAX_SIZE
    ensures var sum := (value + a - 1) % (MAX_SIZE + 1);
            AlignUp(value, a) == sum - sum % a
  {
    PowerOfTwoTest(a);
    var k: nat :| a == Pow2(k);
    SixtyFour();
    if k > 64 {
      Pow2Grows(64, k);
    }
    var sum := (value + a - 1) % (MAX_SIZE + 1);
    AndMask(sum, 64, k);
  }

  /** The least multiple of `a` that is not below `value`. */
  ghost predicate IsAlignedUp(r: nat, value: nat, a: nat)
    requires a > 0
  {
    r % a == 0 && r >= value && forall m: nat :: m % a == 0 && m >= value ==> m >= r
  }

  lemma RoundsUp(value: nat, a: nat)
    requires a > 0
    ensures var sum := value + a - 1;
            IsAlignedUp(sum - sum % a, value, a)
  {
    var sum := value + a - 1;
    assert sum - sum % a == a * (sum / a);
    MultipleMod(sum / a, a);
    forall m: nat | m % a == 0 && m >= value ensures m >= a * (sum / a) {
      assert m == a * (m / a);
      MultiplesApart(a, m / a, sum / a);
    }
  }

  /** Alignment gives the least multiple exactly when the sum does not overflow; otherwise it gives zero. */
  lemma AlignUpExact(value: nat, a: nat)
    requires IsPowerOfTwo(a) && a <= MAX_SIZE && value <= MAX_SIZE
    ensures IsAlignedUp(AlignUp(value, a), value, a) <==> value + a - 1 <= MAX_SIZE
    ensures value + a - 1 > MAX_SIZE ==> AlignUp(value, a) == 0 < value
  {
    AlignUpIs(value, a);
    var sum := value + a - 1;
    if sum <= MAX_SIZE {
      RoundsUp(value, a);
    } else {
      assert sum % (MAX_SIZE + 1) == sum - (MAX_SIZE + 1) < a;
      Remainder(sum - (MAX_SIZE + 1), a, 0, sum - (MAX_SIZE + 1));
    }
  }
}

/** Where a port and its backend context lie in a caller's workspace. */
module Workspace {
  import opened Words
  import opened Division
  import opened Alignment

  /** Sizes and alignments the compiler fixes, and those of the backend chosen. */
  datatype Shape = Shape(portSize: nat, portAlignment: nat, contextSize: nat, contextAlignment: nat)

  /** What a C compiler guarantees about the port structure: it can be placed and followed by anything aligned. */
  predicate Compiled(s: Shape) {
    0 < s.portSize <= 0x8000_0000_0000_0000 && IsPowerOfTwo(s.portAlignment) && s.portAlignment <= MAX_SIZE
    && s.contextSize <= MAX_SIZE && s.contextAlignment <= MAX_SIZE
  }

  datatype Requirements = Needs(size: nat, alignment: nat) | BadBackend | TooLarge

  function ContextOffset(s: Shape): nat
    requires 0 < s.contextAlignment <= MAX_SIZE
  {
    AlignUp(s.portSize, s.contextAlignment)
  }

  function RequirementsFor(s: Shape): (r: Requirements)
    requires Compiled(s)
    ensures r.Needs? ==> r.alignment > 0
  {
    if s.contextAlignment == 0 || !IsPowerOfTwo(s.contextAlignment) || s.contextSize == 0 then BadBackend
    else if s.contextSize > MAX_SIZE - ContextOffset(s) then TooLarge
    else
      Needs(ContextOffset(s) + s.contextSize,
            if s.contextAlignment > s.portAlignment then s.contextAlignment else s.portAlignment)
  }

  datatype Opening = Opened(context: nat) | InvalidArgument | BufferTooSmall | Refused

  /** The checks of opening in place; on success, the address of the backend context. */
  function OpenInPlace(s: Shape, workspace: nat, size: nat): Opening
    requires Compiled(s)
  {
    match RequirementsFor(s)
    case BadBackend => Refused
    case TooLarge => Refused
    case Needs(needed, alignment) =>
      if workspace == 0 then InvalidArgument
      else if workspace % alignment != 0 then InvalidArgument
      else if size < needed then BufferTooSmall
      else Opened(workspace + ContextOffset(s))
  }

  /** A power of two is divided by every smaller one. */
  lemma {:induction false} PowersDivide(j: nat, k: nat)
    requires j <= k
    ensures Pow2(k) % Pow2(j) == 0 && Pow2(k) == Pow2(j) * Pow2(k - j)
    decreases k
  {
    if j == k {
      MultipleMod(1, Pow2(j));
      assert Pow2(j) * 1 == Pow2(j);
    } else {
      PowersDivide(j, k - 1);
      var q := Pow2(k - 1 - j);
      assert Pow2(k) == 2 * (Pow2(j) * q) == Pow2(j) * (2 * q);
      assert Pow2(k - j) == 2 * q;
      MultipleMod(2 * q, Pow2(j));
    }
  }

  lemma DividesThrough(x: nat, a: nat, b: nat)
    requires a > 0 && b > 0 && x % a == 0 && a % b == 0
    ensures x % b == 0
  {
    assert x == a * (x / a) && a == b * (a / b);
    assert b * (a / b) * (x / a) == b * ((a / b) * (x / a));
    MultipleMod((a / b) * (x / a), b);
  }

  /** An address aligned to the larger of two powers of two is aligned to both. */
  lemma AlignedToBoth(x: nat, a: nat, b: nat)
    requires IsPowerOfTwo(a) && IsPowerOfTwo(b) && a <= b && x % b == 0
    ensures x % a == 0
  {
    PowerOfTwoTest(a);
    PowerOfTwoTest(b);
    var j: nat :| a == Pow2(j);
    var k: nat :| b == Pow2(k);
    if j > k {
      Pow2Grows(k + 1, j);
    }
    PowersDivide(j, k);
    DividesThrough(x, b, a);
  }

  lemma SumAligned(x: nat, y: nat, a: nat)
    requires a > 0 && x % a == 0 && y % a == 0
    ensures (x + y) % a == 0
  {
    assert x == a * (x / a) && y == a * (y / a);
    assert x + y == a * (x / a + y / a);
    MultipleMod(x / a + y / a, a);
  }

  /** The largest alignment is 2^63, so rounding the port's size up never overflows. */
  lemma {:induction false} PowerFitsHalf(a: nat)
    requires IsPowerOfTwo(a) && a <= MAX_SIZE
    ensures a <= 0x8000_0000_0000_0000
  {
    PowerOfTwoTest(a);
    var k: nat :| a == Pow2(k);
    SixtyFour();
    if k >= 64 {
      Pow2Grows(64, k);
    } else {
      Pow2Grows(k, 63);
      assert Pow2(64) == 2 * Pow2(63);
    }
  }

  lemma OffsetAligned(s: Shape)
    requires Compiled(s) && s.contextAlignment > 0 && IsPowerOfTwo(s.contextAlignment)
    ensures ContextOffset(s) >= s.portSize && ContextOffset(s) % s.contextAlignment == 0
  {
    PowerFitsHalf(s.contextAlignment);
    AlignUpExact(s.portSize, s.contextAlignment);
  }

  /**
   Any workspace that passes the checks holds the port at its start and the
   whole backend context behind it: in bounds, apart, and each aligned.
   */
  lemma LayoutIsSound(s: Shape, workspace: nat, size: nat)
    requires Compiled(s) && OpenInPlace(s, workspace, size).Opened?
    ensures var context := OpenInPlace(s, workspace, size).context;
            && workspace + s.portSize <= context && context + s.contextSize <= workspace + size
            && workspace % s.portAlignment == 0 && context % s.contextAlignment == 0
  {
    hide IsPowerOfTwo, AlignUp;
    var needs := RequirementsFor(s);
    OffsetAligned(s);
    if s.contextAlignment > s.portAlignment {
      AlignedToBoth(workspace, s.portAlignment, s.contextAlignment);
    } else {
      AlignedToBoth(workspace, s.contextAlignment, s.portAlignment);
    }
    SumAligned(workspace, ContextOffset(s), s.contextAlignment);
  }

  /**
   Opening, case by case: with a usable backend whose context would start at
   `c`, the least aligned offset behind the port, it succeeds exactly if the
   whole fits a size and the workspace is there, aligned for both and large
   enough, and the context then starts at that offset.
   */
  lemma OpensExactly(s: Shape, workspace: nat, size: nat, c: nat)
    requires Compiled(s) && IsPowerOfTwo(s.contextAlignment) && s.contextSize > 0
    requires IsAlignedUp(c, s.portSize, s.contextAlignment)
    ensures OpenInPlace(s, workspace, size) ==
            if c + s.contextSize > MAX_SIZE then Refused
            else if workspace == 0 || workspace % s.portAlignment != 0 || workspace % s.contextAlignment != 0 then
              InvalidArgument
            else if size < c + s.contextSize then BufferTooSmall
            else Opened(workspace + c)
  {
    hide And, AlignUp;
    PowerFitsHalf(s.contextAlignment);
    AlignUpExact(s.portSize, s.contextAlignment);
    assert c == ContextOffset(s);
    if workspace % s.contextAlignment == 0 && s.contextAlignment > s.portAlignment {
      AlignedToBoth(workspace, s.portAlignment, s.contextAlignment);
    } else if workspace % s.portAlignment == 0 && s.contextAlignment <= s.portAlignment {
      AlignedToBoth(workspace, s.contextAlignment, s.portAlignment);
    }
  }

  /** A backend whose alignment is no power of two, or whose context is empty, is never opened. */
  lemma RefusesBadBackend(s: Shape, workspace: nat, size: nat)
    requires Compiled(s) && (!IsPowerOfTwo(s.contextAlignment) || s.contextSize == 0)
    ensures OpenInPlace(s, workspace, size) == Refused
  {
  }

  // ---- The context of the DRIVER backend ----

  /** The size of the slot table behind its header; `None` when it does not fit a size. */
  function DriverContextSize(zeroCopy: bool, tx: nat, rx: nat, header: nat, slot: nat): Option<int>
    requires tx <= MAX_SIZE && rx <= MAX_SIZE && header <= MAX_SIZE && 0 < slot <= MAX_SIZE
  {
    if !zeroCopy then Some(header)
    else if tx > MAX_SIZE - rx then None
    else if tx + rx > MAX_SIZE / slot then None
    else if (tx + rx) * slot > MAX_SIZE - header then None
    else Some(header + (tx + rx) * slot)
  }

  lemma QuotientBound(n: nat, d: nat, m: nat)
    requires d > 0
    ensures n > m / d <==> d * n > m
  {
    var q := m / d;
    assert m == d * q + m % d;
    MultiplesApart(d, q, n);
    MultiplesApart(d, n, q);
  }

  lemma ProductGrows(n: nat, d: nat)
    requires d > 0
    ensures d * n >= n
  {
    assert d * n == n + (d - 1) * n;
    assert (d - 1) * n >= 0;
  }

  /** The three checks together refuse exactly the tables whose size overflows. */
  lemma DriverContextExact(tx: nat, rx: nat, header: nat, slot: nat)
    requires tx <= MAX_SIZE && rx <= MAX_SIZE && header <= MAX_SIZE && 0 < slot <= MAX_SIZE
    ensures DriverContextSize(true, tx, rx, header, slot) ==
            if header + (tx + rx) * slot <= MAX_SIZE then Some(header + (tx + rx) * slot) else None
  {
    var n := tx + rx;
    assert n * slot == slot * n;
    QuotientBound(n, slot, MAX_SIZE);
    ProductGrows(n, slot);
  }

  lemma SlotAligned(base: nat, slot: nat, a: nat, i: nat)
    requires a > 0 && base % a == 0 && slot % a == 0
    ensures (base + slot * i) % a == 0
  {
    assert slot == a * (slot / a);
    assert a * (slot / a) * i == a * ((slot / a) * i);
    MultipleMod((slot / a) * i, a);
    SumAligned(base, slot * i, a);
  }

  /** Where slot `i` starts. */
  function SlotAt(context: nat, header: nat, slot: nat, i: nat): nat {
    context + header + slot * i
  }

  predicate Apart(a: nat, b: nat, size: nat) {
    a + size <= b || b + size <= a
  }

  /** Every slot lies inside the context, apart from the header and from every other slot, and aligned. */
  lemma SlotsInContext(tx: nat, rx: nat, header: nat, slot: nat, slotAlignment: nat, context: nat, i: nat)
    requires tx <= MAX_SIZE && rx <= MAX_SIZE && header <= MAX_SIZE && 0 < slot <= MAX_SIZE && slotAlignment > 0
    requires DriverContextSize(true, tx, rx, header, slot).Some? && i < tx + rx
    requires header % slotAlignment == 0 && slot % slotAlignment == 0 && context % slotAlignment == 0
    ensures var a := SlotAt(context, header, slot, i);
            && context + header <= a
            && a + slot <= context + DriverContextSize(true, tx, rx, header, slot).value
            && a % slotAlignment == 0
            && forall j: nat :: j < tx + rx && j != i ==> Apart(a, SlotAt(context, header, slot, j), slot)
  {
    MultiplesApart(slot, i, tx + rx);
    assert (tx + rx) * slot == slot * (tx + rx);
    SumAligned(context, header, slotAlignment);
    SlotAligned(context + header, slot, slotAlignment, i);
    forall j: nat | j < tx + rx && j != i
      ensures Apart(SlotAt(context, header, slot, i), SlotAt(context, header, slot, j), slot)
    {
      MultiplesApart(slot, i, j);
      MultiplesApart(slot, j, i);
    }
  }

  /**
   A DRIVER port opened in place: the workspace holds the port, behind it the
   header of the context and behind that every buffer slot, all apart, in
   bounds and aligned. What the compiler contributes is that the context's
   alignment is a multiple of a slot's, and so are the sizes of header and slot.
   */
  lemma DriverWorkspaceIsSound(s: Shape, tx: nat, rx: nat, header: nat, slot: nat, slotAlignment: nat,
                               workspace: nat, size: nat, i: nat)
    requires tx <= MAX_SIZE && rx <= MAX_SIZE && header <= MAX_SIZE && 0 < slot <= MAX_SIZE && slotAlignment > 0
    requires DriverContextSize(true, tx, rx, header, slot) == Some(s.contextSize)
    requires s.contextAlignment % slotAlignment == 0 && header % slotAlignment == 0 && slot % slotAlignment == 0
    requires Compiled(s) && OpenInPlace(s, workspace, size).Opened? && i < tx + rx
    ensures var context := OpenInPlace(s, workspace, size).context;
            var a := SlotAt(context, header, slot, i);
            && workspace + s.portSize <= context && context + header <= a && a + slot <= workspace + size
            && context % s.contextAlignment == 0 && a % slotAlignment == 0
            && forall j: nat :: j < tx + rx && j != i ==> Apart(a, SlotAt(context, header, slot, j), slot)
  {
    hide DriverContextSize, SlotAt, Apart, RequirementsFor, IsPowerOfTwo, AlignUp;
    var context := OpenInPlace(s, workspace, size).context;
    LayoutIsSound(s, workspace, size);
    OpenedIsAligned(s, workspace, size);
    DividesThrough(context, s.contextAlignment, slotAlignment);
    SlotsInContext(tx, rx, header, slot, slotAlignment, context, i);
  }

  lemma OpenedIsAligned(s: Shape, workspace: nat, size: nat)
    requires Compiled(s) && OpenInPlace(s, workspace, size).Opened?
    ensures s.contextAlignment > 0
  {
  }
}
