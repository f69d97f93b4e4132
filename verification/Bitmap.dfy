/**
 The bitmap frame allocator in memory. All bitmaps are byte slices of one memory, `ram`, indexed
 by physical address (the higher-half mapping only adds a constant to every address); setting
 and clearing bits changes bytes in place.
 */
module Bitmap {
  import opened Wrappers
  import opened Bytes
  import opened FrameSpec

  // ---------------------------------------------------------------- bits of a byte

  function Mask(j: nat): bv8
    requires j < 8
  {
    (1 as bv8) << j
  }

  predicate Test(b: bv8, k: nat)
    requires k < 8
  {
    b & Mask(k) != 0
  }

  lemma Masks()
    ensures Mask(0) == 1 && Mask(1) == 2 && Mask(2) == 4 && Mask(3) == 8
    ensures Mask(4) == 16 && Mask(5) == 32 && Mask(6) == 64 && Mask(7) == 128
  {
  }

  lemma SetOne(b: bv8, j: nat, k: nat)
    requires j < 8 && k < 8
    ensures Test(b | Mask(j), k) <==> j == k || Test(b, k)
  {
    Masks();
  }

  lemma ClearOne(b: bv8, j: nat, k: nat)
    requires j < 8 && k < 8
    ensures Test(b & !Mask(j), k) <==> j != k && Test(b, k)
  {
    Masks();
  }

  // ---------------------------------------------------------------- bitmaps

  /** `size` bits in the bytes from address `at` on. */
  datatype BitmapView = BitmapView(size: nat, at: nat)

  function BytesFor(size: nat): nat { (size + 7) / 8 }

  /** The bits that there are bytes for. */
  function Bits(v: BitmapView): nat { 8 * BytesFor(v.size) }

  predicate InBytes(v: BitmapView, start: nat, count: nat) { count == 0 || start + count <= Bits(v) }

  function EndAt(v: BitmapView): nat { v.at + BytesFor(v.size) }

  predicate IsSet(ram: seq<bv8>, v: BitmapView, i: nat)
    requires EndAt(v) <= |ram| && i < v.size
  {
    Test(ram[v.at + i / 8], i % 8)
  }

  /** In memory: frame `i` is used if and only if bit `i % 8` of byte `i / 8`, counted from the least
      significant one, is 1. */
  lemma BitInMemory(ram: seq<bv8>, v: BitmapView, i: nat)
    requires EndAt(v) <= |ram| && i < v.size
    ensures BitsOf(ram, v)[i] <==> BitOf(ram[v.at + i / 8] as nat, i % 8)
  {
    BitTests(ram[v.at + i / 8], i % 8);
  }

  function BitsOf(ram: seq<bv8>, v: BitmapView): (bits: seq<bool>)
    requires EndAt(v) <= |ram|
    ensures |bits| == v.size
  {
    seq(v.size, i requires 0 <= i < v.size => IsSet(ram, v, i))
  }

  /** Nothing outside the bitmap's own bytes differs. */
  ghost predicate OnlyIn(v: BitmapView, ram: seq<bv8>, ram': seq<bv8>)
  {
    |ram'| == |ram| && forall a :: 0 <= a < |ram| && !(v.at <= a < EndAt(v)) ==> ram'[a] == ram[a]
  }

  predicate Apart(u: BitmapView, v: BitmapView) { EndAt(u) <= v.at || EndAt(v) <= u.at }

  /** Changes in one bitmap are invisible in another. */
  lemma ApartBits(u: BitmapView, v: BitmapView, ram: seq<bv8>, ram': seq<bv8>)
    requires EndAt(u) <= |ram| && Apart(u, v) && OnlyIn(v, ram, ram')
    ensures BitsOf(ram', u) == BitsOf(ram, u)
  {
    forall i | 0 <= i < u.size ensures IsSet(ram', u, i) == IsSet(ram, u, i) {
      assert i / 8 < BytesFor(u.size);
    }
  }

  /** Bits `i` and `k` lie in the same byte at the same place only if they are the same bit. */
  lemma SamePlace(i: nat, k: nat)
    requires i / 8 == k / 8 && i % 8 == k % 8
    ensures i == k
  {
    assert i == i / 8 * 8 + i % 8 && k == k / 8 * 8 + k % 8;
  }

  /** Byte `b` after setting or clearing its bit `j`. */
  function Written(b: bv8, j: nat, used: bool): bv8
    requires j < 8
  {
    if used then b | Mask(j) else b & !Mask(j)
  }

  lemma WrittenByte(b: bv8, j: nat, k: nat, used: bool)
    requires j < 8 && k < 8
    ensures Test(Written(b, j, used), k) == (if k == j then used else Test(b, k))
  {
    if used {
      SetOne(b, j, k);
    } else {
      ClearOne(b, j, k);
    }
  }

  /** What writing bit `j` of the byte at `a` does to bit `k` of the byte at `a'`. */
  lemma WrittenAt(ram: seq<bv8>, a: nat, j: nat, a': nat, k: nat, used: bool)
    requires a < |ram| && a' < |ram| && j < 8 && k < 8
    ensures Test(ram[a := Written(ram[a], j, used)][a'], k) == (if a == a' && j == k then used else Test(ram[a'], k))
  {
    WrittenByte(ram[a], j, k, used);
  }

  lemma WrittenBit(ram: seq<bv8>, v: BitmapView, i: nat, used: bool, k: nat)
    requires EndAt(v) <= |ram| && i < Bits(v) && k < v.size
    ensures IsSet(ram[v.at + i / 8 := Written(ram[v.at + i / 8], i % 8, used)], v, k)
            == if k == i then used else IsSet(ram, v, k)
  {
    WrittenAt(ram, v.at + i / 8, i % 8, v.at + k / 8, k % 8, used);
    if i / 8 == k / 8 && i % 8 == k % 8 {
      SamePlace(i, k);
    }
  }

  lemma WriteBit(ram: seq<bv8>, v: BitmapView, i: nat, used: bool)
    requires EndAt(v) <= |ram| && i < Bits(v)
    ensures var ram' := ram[v.at + i / 8 := Written(ram[v.at + i / 8], i % 8, used)];
            BitsOf(ram', v) == Fill(BitsOf(ram, v), i, 1, used) && OnlyIn(v, ram, ram')
  {
    var ram' := ram[v.at + i / 8 := Written(ram[v.at + i / 8], i % 8, used)];
    var want := Fill(BitsOf(ram, v), i, 1, used);
    forall k | 0 <= k < v.size ensures BitsOf(ram', v)[k] == want[k] {
      WrittenBit(ram, v, i, used, k);
    }
  }

  lemma FillMore(bits: seq<bool>, i: nat, n: nat, used: bool)
    ensures Fill(Fill(bits, i, n, used), i + n, 1, used) == Fill(bits, i, n + 1, used)
    ensures Fill(bits, i, 0, used) == bits
  {
  }

  /** Past the end there is nothing more to fill. */
  lemma FillPastEnd(bits: seq<bool>, i: nat, n: nat, n': nat, used: bool)
    requires |bits| <= i + n && n <= n'
    ensures Fill(bits, i, n, used) == Fill(bits, i, n', used)
  {
  }

  /** The unused bits of the last byte can be written, too; no frame has them. */
  method SetBit(ram: array<bv8>, v: BitmapView, i: nat)
    requires EndAt(v) <= ram.Length && i < Bits(v)
    modifies ram
    ensures BitsOf(ram[..], v) == Fill(old(BitsOf(ram[..], v)), i, 1, true)
    ensures OnlyIn(v, old(ram[..]), ram[..])
  {
    ghost var before := ram[..];
    var b := ram[v.at + i / 8] | Mask(i % 8);
    WriteBit(before, v, i, true);
    ram[v.at + i / 8] := b;
    assert ram[..] == before[v.at + i / 8 := b];
  }

  method ClearBit(ram: array<bv8>, v: BitmapView, i: nat)
    requires EndAt(v) <= ram.Length && i < Bits(v)
    modifies ram
    ensures BitsOf(ram[..], v) == Fill(old(BitsOf(ram[..], v)), i, 1, false)
    ensures OnlyIn(v, old(ram[..]), ram[..])
  {
    ghost var before := ram[..];
    var b := ram[v.at + i / 8] & !Mask(i % 8);
    WriteBit(before, v, i, false);
    ram[v.at + i / 8] := b;
    assert ram[..] == before[v.at + i / 8 := b];
  }

  method GetBit(ram: array<bv8>, v: BitmapView, i: nat) returns (used: bool)
    requires EndAt(v) <= ram.Length && i < v.size
    ensures used == BitsOf(ram[..], v)[i]
  {
    used := (ram[v.at + i / 8] & Mask(i % 8)) != 0;
  }

  /** Sets or clears `count` bits from `start` on. Running over the bytes of the bitmap is a panic,
      `false`, after the bits up to the end were written. */
  method MarkBits(ram: array<bv8>, v: BitmapView, start: nat, count: nat, used: bool) returns (ok: bool)
    requires EndAt(v) <= ram.Length
    modifies ram
    ensures ok == InBytes(v, start, count)
    ensures BitsOf(ram[..], v) == Fill(old(BitsOf(ram[..], v)), start, count, used)
    ensures OnlyIn(v, old(ram[..]), ram[..])
  {
    ghost var bits := BitsOf(ram[..], v);
    FillMore(bits, start, 0, used);
    for j := start to start + count
      invariant start < j ==> j <= Bits(v)
      invariant BitsOf(ram[..], v) == Fill(bits, start, j - start, used)
      invariant OnlyIn(v, old(ram[..]), ram[..])
    {
      if j / 8 >= BytesFor(v.size) {
        FillPastEnd(bits, start, j - start, count, used);
        return false;
      }
      FillMore(bits, start, j - start, used);
      if used {
        SetBit(ram, v, j);
      } else {
        ClearBit(ram, v, j);
      }
    }
    return true;
  }

  // ---------------------------------------------------------------- regions

  /** A region as stored in the metadata block: `home` is the address of its record. */
  datatype MemoryRegion = MemoryRegion(start: nat, end: nat, bitmap: BitmapView, home: nat)

  predicate WellSized(m: MemoryRegion, ramSize: nat)
  {
    && m.end == m.start + m.bitmap.size * FRAME_SIZE && Aligned(m.start)
    && EndAt(m.bitmap) <= ramSize
  }

  function RegionOf(ram: seq<bv8>, m: MemoryRegion): Region
    requires EndAt(m.bitmap) <= |ram|
  {
    Region(m.start, BitsOf(ram, m.bitmap))
  }

  /** State of the scan at index `i`: a free run of length `free` ends here, the frame before it is
      used, and no window of `count` free frames ends here or earlier. */
  ghost predicate Scanned(bits: seq<bool>, count: nat, i: nat, free: nat)
  {
    && free <= i <= |bits|
    && (forall k :: i - free <= k < i ==> !bits[k])
    && (free < i ==> bits[i - free - 1])
    && (count >= 1 ==> free < count && forall s: nat :: s + count <= i ==> !Window(bits, s, count))
  }

  lemma ScanUsed(bits: seq<bool>, count: nat, i: nat, free: nat)
    requires Scanned(bits, count, i, free) && i < |bits| && bits[i]
    ensures Scanned(bits, count, i + 1, 0)
  {
    forall s: nat | count >= 1 && s + count <= i + 1 ensures !Window(bits, s, count) {
      assert s + count == i + 1 ==> s <= i < s + count;
    }
  }

  lemma ScanFree(bits: seq<bool>, count: nat, i: nat, free: nat)
    requires Scanned(bits, count, i, free) && i < |bits| && !bits[i] && free + 1 != count
    ensures Scanned(bits, count, i + 1, free + 1)
  {
    forall s: nat | count >= 1 && s + count <= i + 1 ensures !Window(bits, s, count) {
      assert s + count == i + 1 ==> s <= i - free - 1 < s + count;
    }
  }

  lemma ScanHit(bits: seq<bool>, count: nat, i: nat, free: nat)
    requires Scanned(bits, count, i, free) && i < |bits| && !bits[i] && free + 1 == count
    ensures WindowFor(bits, count) == Some(i - free)
  {
    assert Window(bits, i - free, count);
  }

  lemma ScanMiss(bits: seq<bool>, count: nat, free: nat)
    requires Scanned(bits, count, |bits|, free)
    ensures WindowFor(bits, count) == None
  {
  }

  /** The search of first fit: a single scan that counts consecutive free frames. It stops at
      exactly the lowest window; a request for no frames never stops. */
  method FindWindow(ram: array<bv8>, m: MemoryRegion, count: nat) returns (index: Option<nat>)
    requires EndAt(m.bitmap) <= ram.Length
    ensures index == WindowFor(BitsOf(ram[..], m.bitmap), count)
  {
    ghost var bits := BitsOf(ram[..], m.bitmap);
    var consecutiveFree := 0;
    var startIndex := 0;
    for i := 0 to m.bitmap.size
      invariant Scanned(bits, count, i, consecutiveFree)
      invariant consecutiveFree > 0 ==> startIndex == i - consecutiveFree
    {
      var used := GetBit(ram, m.bitmap, i);
      assert used == bits[i];
      if !used {
        if consecutiveFree == 0 {
          startIndex := i;
        }
        consecutiveFree := consecutiveFree + 1;
        if consecutiveFree == count {
          ScanHit(bits, count, i, consecutiveFree - 1);
          return Some(startIndex);
        }
        ScanFree(bits, count, i, consecutiveFree - 1);
      } else {
        ScanUsed(bits, count, i, consecutiveFree);
        consecutiveFree := 0;
      }
    }
    ScanMiss(bits, count, consecutiveFree);
    return None;
  }

  /** First fit within one region. */
  method RegionAlloc(ram: array<bv8>, m: MemoryRegion, count: nat) returns (frames: Option<FrameRange>)
    requires WellSized(m, ram.Length)
    modifies ram
    ensures var bits := old(BitsOf(ram[..], m.bitmap));
            var w := WindowFor(bits, count);
            && frames == (if w.None? then None else Some(FrameRange(m.start + w.value * FRAME_SIZE, count)))
            && BitsOf(ram[..], m.bitmap) == (if w.None? then bits else Fill(bits, w.value, count, true))
    ensures if frames.Some? then Aligned(frames.value.start) else ram[..] == old(ram[..])
    ensures OnlyIn(m.bitmap, old(ram[..]), ram[..])
  {
    var index := FindWindow(ram, m, count);
    if index.None? {
      return None;
    }
    var marked := MarkBits(ram, m.bitmap, index.value, count, true);
    assert marked;
    return Some(FrameRange(m.start + index.value * FRAME_SIZE, count));
  }

  /** Only where the range starts is checked by the caller; `false` is the panic on a range that
      runs over the bytes of the bitmap. */
  method RegionDealloc(ram: array<bv8>, m: MemoryRegion, frames: FrameRange) returns (ok: bool)
    requires WellSized(m, ram.Length) && m.start <= frames.start
    modifies ram
    ensures ok == InBytes(m.bitmap, (frames.start - m.start) / FRAME_SIZE, frames.count)
    ensures BitsOf(ram[..], m.bitmap)
            == Fill(old(BitsOf(ram[..], m.bitmap)), (frames.start - m.start) / FRAME_SIZE, frames.count, false)
    ensures OnlyIn(m.bitmap, old(ram[..]), ram[..])
  {
    var offset := frames.start - m.start;
    ok := MarkBits(ram, m.bitmap, offset / FRAME_SIZE, frames.count, false);
  }

  /** Marks frames as used without going through the search. */
  method Reserve(ram: array<bv8>, m: MemoryRegion, frames: FrameRange) returns (ok: bool)
    requires WellSized(m, ram.Length) && m.start <= frames.start
    modifies ram
    ensures ok == InBytes(m.bitmap, (frames.start - m.start) / FRAME_SIZE, frames.count)
    ensures BitsOf(ram[..], m.bitmap)
            == Fill(old(BitsOf(ram[..], m.bitmap)), (frames.start - m.start) / FRAME_SIZE, frames.count, true)
    ensures OnlyIn(m.bitmap, old(ram[..]), ram[..])
  {
    var offset := frames.start - m.start;
    ok := MarkBits(ram, m.bitmap, offset / FRAME_SIZE, frames.count, true);
  }

  method FreeInRegion(ram: array<bv8>, m: MemoryRegion) returns (n: nat)
    requires WellSized(m, ram.Length)
    ensures n == FreeIn(BitsOf(ram[..], m.bitmap))
  {
    n := 0;
    ghost var bits := BitsOf(ram[..], m.bitmap);
    for i := 0 to m.bitmap.size
      invariant n == FreeIn(bits[..i])
    {
      assert bits[..i + 1][..i] == bits[..i];
      var used := GetBit(ram, m.bitmap, i);
      if !used {
        n := n + 1;
      }
    }
    assert bits[..m.bitmap.size] == bits;
  }

  /** `fill(0)` on a bitmap's bytes. */
  method ZeroBits(ram: array<bv8>, v: BitmapView)
    requires EndAt(v) <= ram.Length
    modifies ram
    ensures forall i :: 0 <= i < v.size ==> !BitsOf(ram[..], v)[i]
    ensures OnlyIn(v, old(ram[..]), ram[..])
  {
    for a := v.at to EndAt(v)
      invariant forall b :: v.at <= b < a ==> ram[b] == 0
      invariant OnlyIn(v, old(ram[..]), ram[..])
    {
      ram[a] := 0;
    }
    forall i | 0 <= i < v.size ensures !IsSet(ram[..], v, i) {
      assert ram[..][v.at + i / 8] == 0;
    }
  }
}
