/**
 Where the allocator keeps its own data. All region records and all bitmaps are packed into the
 first usable memory-map entry big enough to host them:
 record 0 | record 1 | ... | bitmap 0 | bitmap 1 | ...
 */
module MetadataLayout {
  import opened Wrappers
  import opened FrameSpec
  import opened Bitmap
  import opened RegionTable

  const RECORD_SIZE: nat := 8 + 8 + 8 + 16   // two addresses, a bit count, and a slice of bytes

  datatype Entry = Entry(base: nat, length: nat, usable: bool)

  /** The usable entries of a memory map, in order. */
  function Usable(entries: seq<Entry>): (us: seq<Entry>)
    ensures |us| <= |entries| && forall k :: 0 <= k < |us| ==> us[k].usable
  {
    if entries == [] then []
    else
      var last := entries[|entries| - 1];
      Usable(entries[..|entries| - 1]) + (if last.usable then [last] else [])
  }

  lemma {:induction false} UsablePrefix(entries: seq<Entry>, i: nat)
    requires i <= |entries|
    ensures |Usable(entries[..i])| <= |Usable(entries)|
    ensures Usable(entries[..i]) == Usable(entries)[..|Usable(entries[..i])|]
  {
    if i == |entries| {
      assert entries[..i] == entries;
    } else {
      var m := |entries| - 1;
      UsablePrefix(entries[..m], i);
      assert entries[..m][..i] == entries[..i];
    }
  }

  /** One step of a loop over the memory map that counts usable entries. */
  lemma NextUsable(entries: seq<Entry>, i: nat)
    requires i < |entries|
    ensures var n, us := |Usable(entries[..i])|, Usable(entries);
            && Usable(entries[..i + 1]) == Usable(entries[..i]) + (if entries[i].usable then [entries[i]] else [])
            && n <= |us|
            && (entries[i].usable ==> n < |us| && us[n] == entries[i])
  {
    assert entries[..i + 1][..i] == entries[..i];
    UsablePrefix(entries, i);
    UsablePrefix(entries, i + 1);
    if entries[i].usable {
      var n := |Usable(entries[..i])|;
      assert Usable(entries[..i + 1])[n] == entries[i];
    }
  }

  function FramesIn(e: Entry): nat { e.length / FRAME_SIZE }

  function BitmapBytes(us: seq<Entry>): nat
  {
    if us == [] then 0 else BitmapBytes(us[..|us| - 1]) + BytesFor(FramesIn(us[|us| - 1]))
  }

  function MetadataSize(us: seq<Entry>): nat { BitmapBytes(us) + |us| * RECORD_SIZE }

  function FramesNeeded(us: seq<Entry>): nat { (MetadataSize(us) + FRAME_SIZE - 1) / FRAME_SIZE }

  /** What the boot protocol promises about usable entries. */
  predicate GoodEntries(us: seq<Entry>, ramSize: nat)
  {
    && (forall k :: 0 <= k < |us| ==>
          Aligned(us[k].base) && Aligned(us[k].length) && us[k].base + us[k].length <= ramSize)
    && (forall j, k :: 0 <= j < |us| && 0 <= k < |us| && j != k ==>
          us[j].base + us[j].length <= us[k].base || us[k].base + us[k].length <= us[j].base)
  }

  /** The first entry, from `from` on, that can host the metadata. */
  function HostOf(us: seq<Entry>, size: nat, from: nat): (h: Option<nat>)
    requires from <= |us|
    ensures h.Some? ==> from <= h.value < |us| && us[h.value].length >= size
    ensures h.Some? ==> forall k :: from <= k < h.value ==> us[k].length < size
    ensures h.None? ==> forall k :: from <= k < |us| ==> us[k].length < size
    decreases |us| - from
  {
    if from == |us| then None
    else if us[from].length >= size then Some(from)
    else HostOf(us, size, from + 1)
  }

  /** The record of region `k` when the metadata block starts at `base`. */
  function PlacedRegion(us: seq<Entry>, base: nat, k: nat): MemoryRegion
    requires k < |us|
  {
    MemoryRegion(us[k].base, us[k].base + us[k].length,
                 BitmapView(FramesIn(us[k]), base + |us| * RECORD_SIZE + BitmapBytes(us[..k])),
                 base + k * RECORD_SIZE)
  }

  function Placed(us: seq<Entry>, base: nat): (ms: seq<MemoryRegion>)
    ensures |ms| == |us| && forall k :: 0 <= k < |us| ==> ms[k] == PlacedRegion(us, base, k)
  {
    seq(|us|, k requires 0 <= k < |us| => PlacedRegion(us, base, k))
  }

  lemma {:induction false} BitmapBytesGrow(us: seq<Entry>, j: nat, k: nat)
    requires j < k <= |us|
    ensures BitmapBytes(us[..j]) + BytesFor(FramesIn(us[j])) <= BitmapBytes(us[..k])
  {
    assert us[..k][..k - 1] == us[..k - 1];
    if j < k - 1 {
      BitmapBytesGrow(us, j, k - 1);
    }
  }

  /** Records and bitmaps are pairwise disjoint and inside the frames that `init` reserves; every
      bitmap has a bit for each frame of its region. */
  lemma LayoutDisjoint(us: seq<Entry>, base: nat, j: nat, k: nat)
    requires j < |us| && k < |us|
    ensures var a, b := PlacedRegion(us, base, j), PlacedRegion(us, base, k);
            && (j < k ==> a.home + RECORD_SIZE <= b.home && EndAt(a.bitmap) <= b.bitmap.at)
            && a.home + RECORD_SIZE <= b.bitmap.at
            && base <= a.home && EndAt(b.bitmap) <= base + FramesNeeded(us) * FRAME_SIZE
            && b.bitmap.size * FRAME_SIZE <= us[k].length && b.bitmap.size <= 8 * BytesFor(b.bitmap.size)
  {
    if j < k {
      BitmapBytesGrow(us, j, k);
    }
    BitmapBytesGrow(us, k, |us|);
    assert us[..|us|] == us;
    assert (j + 1) * RECORD_SIZE <= |us| * RECORD_SIZE;
    if j < k {
      assert (j + 1) * RECORD_SIZE <= k * RECORD_SIZE;
    }
  }

  /** The metadata is packed: the records one after the other from the base on, then the bitmaps, each
      with the fewest bytes that hold its bits. */
  lemma MetadataPacked(us: seq<Entry>, base: nat, k: nat)
    requires k < |us|
    ensures var m := PlacedRegion(us, base, k);
            && (k == 0 ==> m.home == base && m.bitmap.at == base + |us| * RECORD_SIZE)
            && (k > 0 ==> var b := PlacedRegion(us, base, k - 1);
                          m.home == b.home + RECORD_SIZE && m.bitmap.at == EndAt(b.bitmap))
            && (m.bitmap.size > 0 ==> 8 * (BytesFor(m.bitmap.size) - 1) < m.bitmap.size)
            && (m.bitmap.size == 0 ==> BytesFor(m.bitmap.size) == 0)
  {
    if k > 0 {
      assert us[..k][..k - 1] == us[..k - 1];
    }
  }

  /** The reservation is tight: the metadata ends where the last bitmap ends, and every reserved
      frame holds a byte of it. */
  lemma ReservationTight(us: seq<Entry>, base: nat)
    requires us != []
    ensures base + MetadataSize(us) == EndAt(PlacedRegion(us, base, |us| - 1).bitmap)
    ensures forall f :: 0 <= f < FramesNeeded(us) ==> f * FRAME_SIZE < MetadataSize(us)
    ensures MetadataSize(us) <= FramesNeeded(us) * FRAME_SIZE
  {
    assert us[..|us| - 1] + [us[|us| - 1]] == us;
  }

  /** `init` finds a host if and only if some usable entry is long enough for all records and bitmaps. */
  lemma HostExactly(us: seq<Entry>)
    ensures HostOf(us, MetadataSize(us), 0).Some?
            <==> exists k :: 0 <= k < |us| &&
                   EndAt(PlacedRegion(us, us[k].base, |us| - 1).bitmap) <= us[k].base + us[k].length
  {
    forall k | 0 <= k < |us|
      ensures us[k].length >= MetadataSize(us)
              <==> EndAt(PlacedRegion(us, us[k].base, |us| - 1).bitmap) <= us[k].base + us[k].length
    {
      ReservationTight(us, us[k].base);
    }
  }

  /** A big enough page-aligned host has room for all the frames to reserve. */
  lemma HostFits(us: seq<Entry>, h: nat)
    requires h < |us| && Aligned(us[h].length) && us[h].length >= MetadataSize(us)
    ensures 1 <= FramesNeeded(us) <= FramesIn(us[h])
    ensures FramesNeeded(us) * FRAME_SIZE <= us[h].length
  {
    assert MetadataSize(us) >= RECORD_SIZE;
  }

  lemma PlacedOk(us: seq<Entry>, h: nat, ramSize: nat)
    requires GoodEntries(us, ramSize) && h < |us| && us[h].length >= MetadataSize(us)
    ensures LayoutOk(Placed(us, us[h].base), ramSize)
  {
    var ms := Placed(us, us[h].base);
    HostFits(us, h);
    forall i | 0 <= i < |ms| ensures WellSized(ms[i], ramSize) {
      LayoutDisjoint(us, us[h].base, i, i);
    }
    forall i, j | 0 <= i < |ms| && 0 <= j < |ms| && i != j ensures Apart(ms[i].bitmap, ms[j].bitmap) {
      LayoutDisjoint(us, us[h].base, i, j);
      LayoutDisjoint(us, us[h].base, j, i);
    }
  }
}
